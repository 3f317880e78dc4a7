/**
 * Client code driving the form through the three outcomes of a submission:
 * saved permanently, saved for the session only, and a store that refuses
 * the write.
 */
module Scenarios {
  import opened Wrappers
  import opened Preferences
  import opened Forms

  /** The submission of a French user keeping the detected timezone, with the benchmark on. */
  function FrenchSubmission(): (sub: Submission)
  {
    map[LanguageKey := Some("fr_FR"), TimezoneKey := Some(Autodetect), "show_benchmark" := Some("1")]
  }

  /** The French submission sets the language and the benchmark flag and drops the timezone. */
  lemma FrenchSubmissionEffect(bag: Bag)
    ensures var web := Web(Submit(bag, FrenchSubmission()));
      LanguageKey in web && web[LanguageKey] == "fr_FR" && TimezoneKey !in web
      && "show_benchmark" in web && web["show_benchmark"] == "1"
  {
    var sub := FrenchSubmission();
    assert LanguageKey in sub && !Clears(sub[LanguageKey]);
    assert "show_benchmark" in sub && !Clears(sub["show_benchmark"]);
    assert TimezoneKey in sub && Clears(sub[TimezoneKey]);
  }

  method SavePermanently(stored: Bag)
  {
    var store := new PreferencesStore(stored, None);
    var form := new PreferenceForm();
    form.SetStore(store);
    var user := new User(map[]);
    var notes := new Notifications();
    var log := new Log();
    form.OnSuccess(FrenchSubmission(), true, user, notes, log);
    FrenchSubmissionEffect(stored);
    var web := Web(store.contents);
    assert web[LanguageKey] == "fr_FR" && TimezoneKey !in web && web["show_benchmark"] == "1";
    assert notes.queue == [Success(SavedMessage)] && log.errors == [];
    var reloaded := store.Load();
    assert reloaded == user.preferences;
  }

  method SaveForSession(stored: Bag)
  {
    var store := new PreferencesStore(stored, None);
    var form := new PreferenceForm();
    form.SetStore(store);
    var user := new User(map[]);
    var notes := new Notifications();
    var log := new Log();
    form.OnSuccess(FrenchSubmission(), false, user, notes, log);
    assert store.contents == stored;
    FrenchSubmissionEffect(stored);
    var web := Web(user.preferences);
    assert web[LanguageKey] == "fr_FR" && TimezoneKey !in web && web["show_benchmark"] == "1";
    assert notes.queue == [Success(SessionSavedMessage)];
  }

  method StoreRefusesWrite(stored: Bag, reason: string)
  {
    var store := new PreferencesStore(stored, Some(reason));
    var form := new PreferenceForm();
    form.SetStore(store);
    var user := new User(map[]);
    var notes := new Notifications();
    var log := new Log();
    form.OnSuccess(FrenchSubmission(), true, user, notes, log);
    assert store.contents == stored;
    FrenchSubmissionEffect(stored);
    var web := Web(user.preferences);
    assert web[LanguageKey] == "fr_FR" && TimezoneKey !in web && web["show_benchmark"] == "1";
    assert notes.queue == [Error(reason)] && log.errors == [reason];
  }
}
