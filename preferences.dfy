/**
 * The user's preferences bag and the rules by which a submission of the
 * preference form is merged into it.
 */
module Preferences {
  import opened Wrappers

  /** One namespace of the bag: preference key to value. */
  type Section = map<string, string>

  /** The preferences bag: namespace to section. */
  type Bag = map<string, Section>

  /** The form's submitted values; `None` is a PHP `null`. */
  type Submission = map<string, Option<string>>

  /** The only namespace the form reads and writes. */
  const WebNamespace := "icingaweb"

  /** The sentinel for "derive this from the request". */
  const Autodetect := "autodetect"

  const LanguageKey := "language"
  const TimezoneKey := "timezone"

  /** A submitted value that removes its key: strictly `null` or `'autodetect'`. */
  predicate Clears(v: Option<string>)
  {
    v.None? || v.value == Autodetect
  }

  /** The `icingaweb` section of a bag; an absent namespace reads as empty. */
  function Web(bag: Bag): (s: Section)
  {
    if WebNamespace in bag then bag[WebNamespace] else map[]
  }

  /** No stored value is the sentinel itself. */
  predicate SentinelFree(s: Section)
  {
    forall k :: k in s ==> s[k] != Autodetect
  }

  /** One pass of the merge loop: remove the key or store the value. */
  function Apply(s: Section, key: string, v: Option<string>): (r: Section)
    ensures Clears(v) ==> key !in r
    ensures !Clears(v) ==> key in r && r[key] == v.value
    ensures forall k :: k != key ==> (k in r <==> k in s)
    ensures forall k :: k != key && k in r ==> r[k] == s[k]
  {
    if Clears(v) then s - {key} else s[key := v.value]
  }

  /**
   * The section after a whole submission: every submitted key is removed or
   * set, every other key keeps its loaded value, and nothing else is added.
   */
  function Merge(s: Section, sub: Submission): (r: Section)
    ensures forall k :: k in sub && !Clears(sub[k]) ==> k in r && r[k] == sub[k].value
    ensures forall k :: k in sub && Clears(sub[k]) ==> k !in r
    ensures forall k :: k !in sub ==> (k in r <==> k in s)
    ensures forall k :: k !in sub && k in r ==> r[k] == s[k]
  {
    map k | k in s.Keys + sub.Keys && !(k in sub && Clears(sub[k])) ::
      if k in sub then sub[k].value else s[k]
  }

  /** The part of a submission whose keys lie in `keys`. */
  function Only(sub: Submission, keys: set<string>): (r: Submission)
    ensures r.Keys == sub.Keys * keys
    ensures forall k :: k in r ==> r[k] == sub[k]
  {
    map k | k in sub && k in keys :: sub[k]
  }

  /**
   * The functional reading of the merge loop: a fold of `Apply` over the
   * submitted keys in the order of the PHP array, given as `order`.
   */
  function MergeInOrder(s: Section, order: seq<string>, sub: Submission): (r: Section)
    requires forall k :: k in order ==> k in sub
    decreases |order|
  {
    if order == [] then s
    else MergeInOrder(Apply(s, order[0], sub[order[0]]), order[1..], sub)
  }

  /** Running one more key first and merging the rest is merging both. */
  lemma MergeAfterApply(s: Section, key: string, sub: Submission, keys: set<string>)
    requires key in sub
    ensures Merge(Apply(s, key, sub[key]), Only(sub, keys)) == Merge(s, Only(sub, keys + {key}))
  {
    var lhs := Merge(Apply(s, key, sub[key]), Only(sub, keys));
    var rhs := Merge(s, Only(sub, keys + {key}));
    forall k
      ensures k in lhs <==> k in rhs
      ensures k in lhs ==> lhs[k] == rhs[k]
    {
      if k == key {
        assert k in Only(sub, keys + {key});
      }
    }
  }

  /**
   * Whatever the order in which the loop visits the submitted keys, it
   * computes the merge of exactly those keys.
   */
  lemma {:induction false} MergeInOrderIsMerge(s: Section, order: seq<string>, sub: Submission)
    requires forall k :: k in order ==> k in sub
    ensures MergeInOrder(s, order, sub) == Merge(s, Only(sub, set k | k in order))
    decreases |order|
  {
    if order == [] {
      var none := Only(sub, {});
      assert none == map[];
      assert Merge(s, none) == s;
    } else {
      var key, rest := order[0], order[1..];
      MergeInOrderIsMerge(Apply(s, key, sub[key]), rest, sub);
      MergeAfterApply(s, key, sub, set k | k in rest);
      assert (set k | k in order) == (set k | k in rest) + {key};
    }
  }

  /** A foreach over an ordering of all submitted keys yields `Merge`. */
  lemma MergeOrderIndependent(s: Section, order: seq<string>, sub: Submission)
    requires forall k :: k in order <==> k in sub
    ensures MergeInOrder(s, order, sub) == Merge(s, sub)
  {
    MergeInOrderIsMerge(s, order, sub);
    assert Only(sub, set k | k in order) == sub;
  }

  /** Submitting the same values twice gives the section of submitting them once. */
  lemma MergeIdempotent(s: Section, sub: Submission)
    ensures Merge(Merge(s, sub), sub) == Merge(s, sub)
  {
  }

  /** The merge never stores the sentinel: it removes the key instead. */
  lemma MergeKeepsSentinelFree(s: Section, sub: Submission)
    requires SentinelFree(s)
    ensures SentinelFree(Merge(s, sub))
  {
  }

  /**
   * The bag after a submission: the `icingaweb` namespace holds the merged
   * section, and every other namespace is the one loaded.
   */
  function Submit(bag: Bag, sub: Submission): (r: Bag)
    ensures WebNamespace in r && Web(r) == Merge(Web(bag), sub)
    ensures forall ns :: ns != WebNamespace ==> (ns in r <==> ns in bag)
    ensures forall ns :: ns != WebNamespace && ns in r ==> r[ns] == bag[ns]
  {
    bag[WebNamespace := Merge(Web(bag), sub)]
  }

  /** Submitting the same values twice gives the bag of submitting them once. */
  lemma SubmitIdempotent(bag: Bag, sub: Submission)
    ensures Submit(Submit(bag, sub), sub) == Submit(bag, sub)
  {
    MergeIdempotent(Web(bag), sub);
  }

  /**
   * The values the form is pre-filled with: `language` and `timezone` read
   * `autodetect` when the section has no value for them; every stored key
   * keeps its value.
   */
  function Prefilled(s: Section): (r: Section)
    ensures LanguageKey in r && TimezoneKey in r
    ensures forall k :: k in s ==> k in r && r[k] == s[k]
    ensures forall k :: k in r && k !in s ==> (k == LanguageKey || k == TimezoneKey) && r[k] == Autodetect
  {
    var withLanguage := if LanguageKey in s then s else s[LanguageKey := Autodetect];
    if TimezoneKey in withLanguage then withLanguage else withLanguage[TimezoneKey := Autodetect]
  }

  /** The form's fields in `fields`, sent back with the values they were pre-filled with. */
  function Unchanged(prefill: Section, fields: set<string>): (sub: Submission)
    ensures sub.Keys == prefill.Keys * fields
    ensures forall k :: k in sub ==> sub[k] == Some(prefill[k])
  {
    map k | k in prefill && k in fields :: Some(prefill[k])
  }

  /**
   * Sending back any of the pre-filled fields untouched leaves a
   * sentinel-free section as it was: a pre-filled `autodetect` removes a key
   * that was absent, and every other value is stored again.
   */
  lemma PrefillRoundTrip(s: Section, fields: set<string>)
    requires SentinelFree(s)
    ensures Merge(s, Unchanged(Prefilled(s), fields)) == s
  {
  }
}
