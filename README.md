# Preference form of Icinga Web 2, modelled in Dafny

This project models the preference-update core of the `PreferenceForm`
controller of Icinga Web 2 (`application/forms/PreferenceForm.php`): how a
submitted preference form is merged into the user's preferences bag, how the
result is installed in the session and optionally persisted, how a failing
store is reported, and how the form is pre-filled.

- `wrappers.dfy` — `Option`, where `None` stands for PHP `null`.
- `preferences.dfy` (module `Preferences`) — the preferences bag as
  `map<string, map<string, string>>` (namespace to key to value), the
  sentinel `autodetect`, and the merge rules as functions with the lemmas
  about them: which keys a submission sets, which it removes, which it
  leaves alone, that the order of the `foreach` does not matter, that the
  merge is idempotent, that it never stores the sentinel, and that sending
  back pre-filled fields unchanged changes nothing, provided the section
  stores no literal `autodetect` and only fields among the pre-filled keys
  are sent back.
- `preference_form.dfy` (module `Forms`) — the imperative side: the form
  as a class with its `preferences` and `store` fields and setters; the
  merge loop as a method over a section it updates step by step, proved
  equal to the merge function; `OnSuccess` and `OnRequest`; and the
  collaborators the form drives (the preference store, the session user,
  the notification queue, the error log) as small classes whose fields hold
  their state.
- `scenarios.dfy` (module `Scenarios`) — client code for the three
  outcomes of a submission (permanent save, session-only save, refused
  write), with the expected end states as assertions.

`onSuccess` removes a key only for a value that is strictly `null` or the
string `autodetect` (`application/forms/PreferenceForm.php:93`); an empty
string or a checkbox's `'0'` is stored.

The merge loop appears twice. `Forms.MergeValues` is the imperative loop,
which unsets or assigns keys in place and takes them in any order.
`Preferences.MergeInOrder` is its functional reading, a fold over the keys
in the order of the PHP array. Each is proved equal to `Preferences.Merge`:
`MergeValues` by its postcondition, `MergeInOrder` by
`MergeOrderIndependent`. So the two agree on every input.

The two submit buttons are declared ignored
(`application/forms/PreferenceForm.php:193`, `:207`), so they never appear
among the submitted values. The button choice is the boolean `permanent`
argument of `OnSuccess`. The store's backend is a `failure` field. When it
holds a message, every write fails with that message, which is how the
model represents the exception that `save` may throw.

`onRequest` reads the namespace with `get('icingaweb')`, which yields
`null` when the namespace is absent. PHP then treats that `null` as an empty
array when it assigns `language` and `timezone`, so the model reads an
absent namespace as an empty section there too.

## Model

| member | source | states |
|---|---|---|
| Preferences.Apply | application/forms/PreferenceForm.php:93-99 | one loop pass: a `null` or `autodetect` value removes the key (no error if it is absent), any other value is stored under it, every other key is untouched |
| Preferences.Merge | application/forms/PreferenceForm.php:91-100 | after a submission, every submitted non-sentinel value (including the empty string) is stored under its key, every submitted `null`/`autodetect` key is absent, every unsubmitted key keeps its loaded value, and no other key appears |
| Preferences.MergeInOrderIsMerge | application/forms/PreferenceForm.php:92-100 | running the loop over the submitted keys in any order, repetitions allowed, yields the merge of exactly the keys visited |
| Preferences.MergeOrderIndependent | application/forms/PreferenceForm.php:92-100 | a `foreach` over any ordering of all submitted keys yields `Merge`, so the result does not depend on the array's order |
| Preferences.MergeIdempotent | application/forms/PreferenceForm.php:92-100 | applying the same submission twice gives the same section as applying it once |
| Preferences.MergeKeepsSentinelFree | application/forms/PreferenceForm.php:93-98 | a section without the stored value `autodetect` still has none after a merge |
| Preferences.Submit | application/forms/PreferenceForm.php:89-101 | the `icingaweb` namespace is present and holds the merge of the loaded section (an empty section when none was loaded); every other namespace equals its loaded value |
| Preferences.SubmitIdempotent | application/forms/PreferenceForm.php:89-101 | submitting the same values twice gives the same bag as submitting them once |
| Preferences.Prefilled | application/forms/PreferenceForm.php:126-134 | `language` and `timezone` are present; they read `autodetect` when absent and keep their stored value when present; every stored key keeps its value and no other key is added |
| Preferences.PrefillRoundTrip | application/forms/PreferenceForm.php:126-134 | sending back any subset of the pre-filled fields unchanged leaves a sentinel-free section exactly as it was |
| Forms.MergeValues | application/forms/PreferenceForm.php:91-100 | the in-place loop that unsets or assigns each submitted key ends with exactly `Merge` of the loaded section and the submission |
| Forms.PreferenceForm.constructor | application/forms/PreferenceForm.php:29-36 | a new form has no preferences and no store |
| Forms.PreferenceForm.SetPreferences | application/forms/PreferenceForm.php:53-57 | the form's preferences become the given bag; the store is unchanged |
| Forms.PreferenceForm.SetStore | application/forms/PreferenceForm.php:66-69 | the form's store becomes the given store; the preferences are unchanged |
| Forms.PreferenceForm.Save | application/forms/PreferenceForm.php:76-80 | the store receives exactly the form's preferences when the backend accepts the write, keeps its contents otherwise, and the outcome says which |
| Forms.PreferenceForm.OnSuccess | application/forms/PreferenceForm.php:87-116 | the form's and the session user's preferences both become `Submit` of the freshly loaded store contents, whatever the previous session preferences and whether or not the write succeeds; the store is written, with that same bag, only for a permanent save to a working backend; exactly one notification is queued (session-only success, permanent success, or the failure's message as an error) and a failure is logged once and not propagated |
| Forms.PreferenceForm.OnRequest | application/forms/PreferenceForm.php:123-136 | the form is populated with `Prefilled` of the user's `icingaweb` section |

## Left out

- `createElements` (markup, translated labels, the locale and timezone option lists, `setlocale`): these belong to the form framework and the translation catalogue. Submitted values are taken as already validated.
- `getDefaultTimezone` and `getLocale`: they rely on request headers, a client cookie and the host's default timezone, none of which the model sees.
- The form framework's `getValues`, `populate` and `getElement(...)->isChecked()`: `OnSuccess` receives the values and the button choice as arguments, and `OnRequest` returns the values it would populate.
- `Session::getSession()` and `Manager::getInstance()`: the session user is passed explicitly, and it is the same user in `OnSuccess` and `OnRequest`.
- The store backend (files or a database): the store is a bag of contents plus a failure flag. A write that fails is modelled as leaving the contents as they were, because the backend is not part of this model.
- Forms.PreferenceForm.OnSuccess: a `load` that throws is outside the `try` and would escape `onSuccess`; this is not modelled, since the model's store always loads.
- `Preferences` objects are modelled as values, so the sharing of one object between the form and the session user is not represented; nothing changes that object after it is shared, so no behaviour depends on it.
- `Logger::error` records the whole exception; the model logs only its message. Translation with `t()` is not modelled, so notifications carry the untranslated texts.
- Forms.PreferenceForm.Save and Forms.PreferenceForm.OnSuccess require a store, and `Save` also requires preferences. In PHP, calling them without these is a fatal "call to a member function on null", which no caller is meant to reach, so the model does not represent that error.
- `init` only sets the form's name, and `setStore`'s missing `return $this` has no effect on the model.
