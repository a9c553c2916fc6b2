/** LevelAdapter: the card of one level on the main screen, and the main screen's reaction to
    a click on it. */
module LevelAdapter {
  import opened Wrappers
  import opened Models
  import opened CatalogRules
  import opened Preferences
  import ProgressAdapter

  /** The status line of a level card. */
  datatype LevelStatus = Completed | Available | Locked

  /** What a level card shows: its status, whether the card is dimmed (alpha 0.6 instead of
      1.0) and whether a click on it reaches the main screen. */
  datatype LevelCard = LevelCard(status: LevelStatus, dimmed: bool, clickable: bool)

  /** The `when` of `bind`: completed wins over unlocked, anything else is locked. */
  function StatusOf(level: Level): (r: LevelStatus)
    ensures r == Completed <==> level.isCompleted
    ensures r == Available <==> !level.isCompleted && level.isUnlocked
    ensures r == Locked <==> !level.isCompleted && !level.isUnlocked
  {
    if level.isCompleted then Completed
    else if level.isUnlocked then Available
    else Locked
  }

  /** `bind`: the status, the dimming of the locked case, and the click listener, which is set
      on every card. */
  function Bind(level: Level): (card: LevelCard)
    ensures card.status == StatusOf(level)
    ensures card.dimmed <==> card.status == Locked
    ensures card.clickable
  {
    match StatusOf(level)
    case Completed => LevelCard(Completed, false, true)
    case Available => LevelCard(Available, false, true)
    case Locked => LevelCard(Locked, true, true)
  }

  /** The main screen's click handler: an unlocked level opens its lesson screen with the
      level's id as `LEVEL_ID`; a locked one does nothing. */
  function OnLevelClick(level: Level): (r: Option<int>)
    ensures r.Some? <==> level.isUnlocked
    ensures r.Some? ==> r.value == level.id
  {
    if level.isUnlocked then Some(level.id) else None
  }

  /** Every card takes clicks, but a level shown as Locked never opens, and a level opens
      exactly when its unlocked flag is set, whatever its status; a completed level whose
      unlocked flag is not set shows Completed and does not open. */
  lemma ClickGate(level: Level)
    ensures Bind(level).clickable
    ensures Bind(level).status == Locked ==> OnLevelClick(level).None?
    ensures Bind(level).status == Available ==> OnLevelClick(level) == Some(level.id)
    ensures level.isCompleted && !level.isUnlocked ==> Bind(level).status == Completed && OnLevelClick(level).None?
  {
  }

  /** The main screen and the progress screen agree on a level: both show it completed, or
      both locked, or it is Available here and In Progress or Available there. */
  lemma AgreesWithProgressCard(level: Level)
    ensures StatusOf(level) == Completed <==> ProgressAdapter.StatusOf(level) == ProgressAdapter.Completed
    ensures StatusOf(level) == Locked <==> ProgressAdapter.StatusOf(level) == ProgressAdapter.Locked
    ensures StatusOf(level) == Available <==>
      ProgressAdapter.StatusOf(level) in {ProgressAdapter.InProgress, ProgressAdapter.Available}
  {
  }

  /** On a store the app wrote, a level's card on the main screen is Locked exactly when it is
      not level 1 and neither it nor the level before it is completed. */
  lemma {:induction false} LockedOnStore(catalog: seq<Level>, s: Store, levelId: int)
    requires CatalogShaped(catalog) && Consistent(catalog, s) && 1 <= levelId <= LevelCount
    ensures Bind(Decorate(s, catalog[levelId - 1])).status == Locked <==>
      levelId != 1 && !IsLevelCompleted(s, levelId) && !IsLevelCompleted(s, levelId - 1)
  {
    assert CatalogLevel(catalog[levelId - 1], levelId);
    UnlockedIffPreviousCompleted(catalog, s, levelId);
  }

  /** On a fresh store the main screen shows level 1 Available and every other level Locked. */
  lemma {:induction false} FreshStatuses(catalog: seq<Level>)
    requires CatalogShaped(catalog)
    ensures forall i :: 0 <= i < LevelCount ==>
      StatusOf(GetAllLevels(catalog, EmptyStore)[i]) == if i == 0 then Available else Locked
  {
    GetAllLevelsOfCatalog(catalog, EmptyStore);
    GetAllLevelsDecorates(catalog, EmptyStore);
    forall i | 0 <= i < LevelCount
      ensures StatusOf(GetAllLevels(catalog, EmptyStore)[i]) == if i == 0 then Available else Locked
    {
      FreshStore(i + 1);
    }
  }
}
