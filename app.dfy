/** The app as shipped: the store and the screens over the fixed catalog. This is the only
    module that names the catalog's content; the others take the catalog as a parameter
    shaped by `CatalogShaped`. */
module App {
  import opened Models
  import opened CatalogRules
  import opened Preferences
  import Catalog
  import LevelAdapter
  import ProgressActivity
  import Quiz
  import CatalogLevel1

  /** `DataManager(context)`: the store over the app's catalog and the persisted values. */
  method OpenDataManager(prefs: Store) returns (dm: DataManager)
    ensures fresh(dm) && dm.Valid()
    ensures dm.catalog == Catalog.Levels() && dm.State() == prefs
  {
    dm := new DataManager(Catalog.Levels(), prefs);
  }

  /** After installation nothing is stored: the store is consistent, level 1 is the only level
      the main screen shows unlocked, and the progress screen shows 0% with no level
      completed. */
  lemma FreshInstall()
    ensures Consistent(Catalog.Levels(), EmptyStore)
    ensures ProgressActivity.LoadProgress(GetAllLevels(Catalog.Levels(), EmptyStore)) ==
      ProgressActivity.Summary(0, 0, LevelCount)
    ensures forall i :: 0 <= i < LevelCount ==>
      LevelAdapter.StatusOf(GetAllLevels(Catalog.Levels(), EmptyStore)[i]) ==
        if i == 0 then LevelAdapter.Available else LevelAdapter.Locked
  {
    EmptyStoreConsistent(Catalog.Levels());
    ProgressActivity.FreshSummary(Catalog.Levels());
    LevelAdapter.FreshStatuses(Catalog.Levels());
  }

  /** The option-click discrepancy on the app's own question 2 of level 1, lesson 1: clicking
      "uint256" and then "string" submits "uint256" and scores it correct as written, while the
      intended handler submits "string" and scores it wrong. */
  lemma ChangedMindOnTokenBalanceQuestion()
    ensures var q := CatalogLevel1.Question2(1);
      var buttons := Quiz.SetUpInputs(q).buttons;
      && q in Catalog.Levels()[0].lessons[0].quizQuestions
      && Quiz.SelectedAnswer(Quiz.ClicksAsWritten(buttons, [1, 2])) == "uint256"
      && Quiz.CheckAnswer(q, Quiz.SelectedAnswer(Quiz.ClicksAsWritten(buttons, [1, 2])))
      && Quiz.SelectedAnswer(Quiz.Clicks(buttons, [1, 2])) == "string"
      && !Quiz.CheckAnswer(q, Quiz.SelectedAnswer(Quiz.Clicks(buttons, [1, 2])))
  {
    Quiz.ChangedMindCountsFirstChoice(CatalogLevel1.Question2(1));
    assert Catalog.Levels()[0] == Catalog.CreateLevel(1) == CatalogLevel1.CreateLevel1(1);
  }
}
