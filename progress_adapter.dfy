/** ProgressAdapter: the card of one level on the progress screen, with its percentage, the
    "Lessons: n/total" line and a four-way status. */
module ProgressAdapter {
  import opened Models
  import opened KotlinInt
  import opened CatalogRules
  import opened Preferences

  /** The status line of a progress card. */
  datatype Status = Completed | InProgress | Available | Locked

  /** The `when` of `bind`: the first of completed, unlocked with progress, unlocked, else
      locked. */
  function StatusOf(level: Level): (r: Status)
    ensures r == Completed <==> level.isCompleted
    ensures r == InProgress <==> !level.isCompleted && level.isUnlocked && level.progress > 0
    ensures r == Available <==> !level.isCompleted && level.isUnlocked && level.progress <= 0
    ensures r == Locked <==> !level.isCompleted && !level.isUnlocked
  {
    if level.isCompleted then Completed
    else if level.isUnlocked && level.progress > 0 then InProgress
    else if level.isUnlocked then Available
    else Locked
  }

  /** The completed-lesson count of `bind` as written: `progress * total / 100`, rounded toward
      zero. */
  function ShownLessonsAsWritten(progress: int, total: nat): (n: int)
    ensures 0 <= progress <= 100 ==> 0 <= n <= total
  {
    if 0 <= progress <= 100 then
      MulMonotone(progress, 100, total);
      Div(progress * total, 100)
    else Div(progress * total, 100)
  }

  /** The count as the line means it: the percentage scaled back to lessons, rounded up, which
      undoes the floor of the stored percentage. */
  function ShownLessons(progress: int, total: nat): (n: int)
    ensures 0 <= progress <= 100 ==> 0 <= n <= total
  {
    if 0 <= progress <= 100 then
      MulMonotone(progress, 100, total);
      DivUnique(100 * total + 99, 100, total);
      DivMonotone(progress * total + 99, 100 * total + 99, 100);
      Div(progress * total + 99, 100)
    else Div(progress * total + 99, 100)
  }

  /** With the stored percentage of `c` lessons out of `total`, the count as written never
      shows more than `c`; it is exact with no lesson, with every lesson and in levels of two
      lessons. */
  lemma {:induction false} AsWrittenAtMostCompleted(c: int, total: int)
    requires 0 <= c <= total && total > 0
    ensures ShownLessonsAsWritten(c * 100 / total, total) <= c
    ensures c == 0 || c == total || total == 2 ==> ShownLessonsAsWritten(c * 100 / total, total) == c
  {
    var p := c * 100 / total;
    PercentBounds(c, total);
    assert p * total <= c * 100;
    DivMonotone(p * total, c * 100, 100);
    assert c * 100 / 100 == c;
    if c == total {
      assert p == 100;
    } else if total == 2 && c == 1 {
      assert p == 50;
    }
  }

  /** In a level of three lessons the count as written shows one lesson too few once one or
      two lessons are done. */
  lemma UndercountInThreeLessonLevels()
    ensures ShownLessonsAsWritten(1 * 100 / 3, 3) == 0
    ensures ShownLessonsAsWritten(2 * 100 / 3, 3) == 1
  {
    assert 1 * 100 / 3 == 33 && 2 * 100 / 3 == 66;
  }

  /** The rounded-up count gives back exactly the number of lessons done, for every level of
      at most 100 lessons. */
  lemma {:induction false} ShownLessonsExact(c: int, total: int)
    requires 0 <= c <= total && 0 < total <= 100
    ensures ShownLessons(c * 100 / total, total) == c
  {
    var p := c * 100 / total;
    PercentBounds(c, total);
    var r := c * 100 - p * total;
    assert 0 <= r < total;
    assert p * total + 99 == c * 100 + (99 - r);
    DivUnique(p * total + 99, 100, c);
  }

  /** What a progress card shows: the percentage, the lessons line and the status. */
  datatype Card = Card(progress: int, completedLessons: int, totalLessons: int, status: Status)

  /** `bind`, with the lesson count rounded up. */
  function Bind(level: Level): Card
  {
    Card(level.progress, ShownLessons(level.progress, |level.lessons|), |level.lessons|, StatusOf(level))
  }

  /** `bind` as written. */
  function BindAsWritten(level: Level): Card
  {
    Card(level.progress, ShownLessonsAsWritten(level.progress, |level.lessons|), |level.lessons|, StatusOf(level))
  }

  /** On a store the app wrote, the card of a catalog level counts exactly the level's lessons
      whose flag is set, and shows Completed exactly when all of them are. */
  lemma {:induction false} CardShowsStore(catalog: seq<Level>, s: Store, levelId: int)
    requires CatalogShaped(catalog) && Consistent(catalog, s) && 1 <= levelId <= LevelCount
    ensures var lessons := catalog[levelId - 1].lessons;
      var card := Bind(Decorate(s, catalog[levelId - 1]));
      && card.totalLessons == |lessons|
      && card.completedLessons == CompletedLessons(s, levelId, lessons)
      && (card.status == Completed <==> AllLessonsDone(s, levelId))
      && (card.status == Completed <==> card.completedLessons == card.totalLessons)
  {
    var lessons := catalog[levelId - 1].lessons;
    assert CatalogLevel(catalog[levelId - 1], levelId);
    var c := CompletedLessons(s, levelId, lessons);
    assert GetLevelProgress(s, levelId) == c * 100 / |lessons|;
    ShownLessonsExact(c, |lessons|);
    ProgressInRange(catalog, s, levelId);
    CompletedLessonsAll(catalog, s, levelId);
  }

  /** The card as written, on a store the app wrote: it never counts more lessons than are
      flagged, counts exactly with none, all or in a two-lesson level, shows the same status
      as the corrected card, and shows Completed exactly when its count reaches the total. */
  lemma {:induction false} AsWrittenCardShowsStore(catalog: seq<Level>, s: Store, levelId: int)
    requires CatalogShaped(catalog) && Consistent(catalog, s) && 1 <= levelId <= LevelCount
    ensures var lessons := catalog[levelId - 1].lessons;
      var c := CompletedLessons(s, levelId, lessons);
      var card := BindAsWritten(Decorate(s, catalog[levelId - 1]));
      && card.totalLessons == |lessons|
      && card.completedLessons <= c
      && (c == 0 || c == |lessons| || |lessons| == 2 ==> card.completedLessons == c)
      && card.progress == Bind(Decorate(s, catalog[levelId - 1])).progress
      && card.status == Bind(Decorate(s, catalog[levelId - 1])).status
      && (card.status == Completed <==> AllLessonsDone(s, levelId))
      && (card.status == Completed <==> card.completedLessons == card.totalLessons)
  {
    var lessons := catalog[levelId - 1].lessons;
    assert CatalogLevel(catalog[levelId - 1], levelId);
    var c := CompletedLessons(s, levelId, lessons);
    assert GetLevelProgress(s, levelId) == c * 100 / |lessons|;
    AsWrittenAtMostCompleted(c, |lessons|);
    ProgressInRange(catalog, s, levelId);
    CompletedLessonsAll(catalog, s, levelId);
  }
}
