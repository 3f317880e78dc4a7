/**
 * The preference form: pre-filling it from the user's preferences, and
 * handling a submission by merging it into freshly loaded preferences,
 * installing them in the session and, on request, persisting them.
 */
module Forms {
  import opened Wrappers
  import opened Preferences

  /** What a write to the preference store came to; `Failed` carries the exception's message. */
  datatype SaveOutcome = Saved | Failed(message: string)

  /** A message queued for the user. */
  datatype Notification = Success(message: string) | Error(message: string)

  const SavedMessage := "Preferences successfully saved"
  const SessionSavedMessage := "Preferences successfully saved for the current session"

  /**
   * The durable store of one user's preferences. `failure` stands for the
   * backend: when it holds a message, every write fails with it.
   */
  class PreferencesStore {
    var contents: Bag
    var failure: Option<string>

    constructor (contents: Bag, failure: Option<string>)
      ensures this.contents == contents && this.failure == failure
    {
      this.contents := contents;
      this.failure := failure;
    }

    method Load() returns (bag: Bag)
      ensures bag == contents
    {
      bag := contents;
    }

    method Save(bag: Bag) returns (outcome: SaveOutcome)
      modifies this
      ensures failure == old(failure)
      ensures outcome == if failure.None? then Saved else Failed(failure.value)
      ensures contents == if failure.None? then bag else old(contents)
    {
      if failure.None? {
        contents := bag;
        outcome := Saved;
      } else {
        outcome := Failed(failure.value);
      }
    }
  }

  /** The user of the current session, with the preferences in effect for it. */
  class User {
    var preferences: Bag

    constructor (preferences: Bag)
      ensures this.preferences == preferences
    {
      this.preferences := preferences;
    }
  }

  /** The notifications queued for display. */
  class Notifications {
    var queue: seq<Notification>

    constructor ()
      ensures queue == []
    {
      queue := [];
    }

    method Post(n: Notification)
      modifies this
      ensures queue == old(queue) + [n]
    {
      queue := queue + [n];
    }
  }

  /** The application's error log. */
  class Log {
    var errors: seq<string>

    constructor ()
      ensures errors == []
    {
      errors := [];
    }

    method Error(message: string)
      modifies this
      ensures errors == old(errors) + [message]
    {
      errors := errors + [message];
    }
  }

  /**
   * The foreach of onSuccess: removes or sets each submitted key in place.
   * Keys are taken in no particular order; the result is the same for all.
   */
  method MergeValues(web: Section, values: Submission) returns (merged: Section)
    ensures merged == Merge(web, values)
  {
    merged := web;
    var pending := values.Keys;
    while pending != {}
      invariant pending <= values.Keys
      invariant forall k :: k in values && k !in pending && !Clears(values[k]) ==> k in merged && merged[k] == values[k].value
      invariant forall k :: k in values && k !in pending && Clears(values[k]) ==> k !in merged
      invariant forall k :: (k !in values || k in pending) ==> (k in merged <==> k in web)
      invariant forall k :: (k !in values || k in pending) && k in merged ==> merged[k] == web[k]
      decreases pending
    {
      var key :| key in pending;
      var value := values[key];
      if value.None? || value.value == Autodetect {
        if key in merged {
          merged := merged - {key};
        }
      } else {
        merged := merged[key := value.value];
      }
      pending := pending - {key};
    }
    var spec := Merge(web, values);
    assert forall k :: k in merged <==> k in spec;
  }

  class PreferenceForm {
    /** The preferences the form works with; `None` until set or loaded. */
    var preferences: Option<Bag>
    /** The store to load from and save to; `null` until set. */
    var store: PreferencesStore?

    constructor ()
      ensures preferences == None && store == null
    {
      preferences := None;
      store := null;
    }

    method SetPreferences(bag: Bag)
      modifies this
      ensures preferences == Some(bag) && store == old(store)
    {
      preferences := Some(bag);
    }

    method SetStore(s: PreferencesStore)
      modifies this
      ensures store == s && preferences == old(preferences)
    {
      store := s;
    }

    /** Writes the form's preferences to its store. */
    method Save() returns (outcome: SaveOutcome)
      requires store != null && preferences.Some?
      modifies store
      ensures store.failure == old(store.failure)
      ensures outcome == if store.failure.None? then Saved else Failed(store.failure.value)
      ensures store.contents == if store.failure.None? then preferences.value else old(store.contents)
    {
      outcome := store.Save(preferences.value);
    }

    /**
     * Handles a valid submission. `values` are the submitted fields (the
     * buttons are not among them); `permanent` is whether the
     * save-permanently button was pressed rather than the session one.
     */
    method OnSuccess(values: Submission, permanent: bool, user: User, notes: Notifications, log: Log)
      requires store != null
      modifies this, store, user, notes, log
      ensures store == old(store) && store.failure == old(store.failure)
      ensures preferences == Some(Submit(old(store.contents), values))
      ensures user.preferences == Submit(old(store.contents), values)
      ensures store.contents ==
        if permanent && store.failure.None? then Submit(old(store.contents), values) else old(store.contents)
      ensures notes.queue == old(notes.queue) +
        [if !permanent then Success(SessionSavedMessage)
         else if store.failure.None? then Success(SavedMessage)
         else Error(store.failure.value)]
      ensures log.errors == old(log.errors) +
        if permanent && store.failure.Some? then [store.failure.value] else []
    {
      var loaded := store.Load();
      preferences := Some(loaded);
      var web := MergeValues(Web(loaded), values);
      preferences := Some(loaded[WebNamespace := web]);
      user.preferences := preferences.value;
      if permanent {
        var outcome := Save();
        match outcome {
          case Saved =>
            notes.Post(Success(SavedMessage));
          case Failed(message) =>
            log.Error(message);
            notes.Post(Error(message));
        }
      } else {
        notes.Post(Success(SessionSavedMessage));
      }
    }

    /** The values the form is populated with for the given user. */
    method OnRequest(user: User) returns (values: Section)
      ensures values == Prefilled(Web(user.preferences))
    {
      values := Web(user.preferences);
      if LanguageKey !in values {
        values := values[LanguageKey := Autodetect];
      }
      if TimezoneKey !in values {
        values := values[TimezoneKey := Autodetect];
      }
    }
  }
}
