/** ProgressActivity: the summary at the top of the progress screen, the overall percentage
    and the completed-level count. */
module ProgressActivity {
  import opened Models
  import opened KotlinInt
  import opened KotlinCollections
  import opened CatalogRules
  import opened Preferences

  /** `it.progress`, the term summed by `loadProgress`. */
  function ProgressOf(): Level -> int
  {
    (l: Level) => l.progress
  }

  /** `it.isCompleted`, the test counted by `loadProgress`. */
  function IsCompleted(): Level -> bool
  {
    (l: Level) => l.isCompleted
  }

  /** Every level's progress lies in 0..100. */
  predicate ProgressesValid(levels: seq<Level>)
  {
    forall i :: 0 <= i < |levels| ==> ValidProgress(levels[i].progress)
  }

  /** The overall progress: the mean of the levels' progress rounded toward zero, or 0 without
      levels. */
  function OverallProgress(levels: seq<Level>): int
  {
    if |levels| > 0 then Div(SumOf(levels, ProgressOf()), |levels|) else 0
  }

  /** The two lines `loadProgress` writes: overall progress, and completed levels out of all. */
  datatype Summary = Summary(overallProgress: int, completedLevels: int, totalLevels: int)

  /** `loadProgress`. */
  function LoadProgress(levels: seq<Level>): (r: Summary)
    ensures r.totalLevels == |levels| && 0 <= r.completedLevels <= r.totalLevels
    ensures r.completedLevels == r.totalLevels <==> forall i :: 0 <= i < |levels| ==> levels[i].isCompleted
    ensures r.completedLevels == 0 <==> forall i :: 0 <= i < |levels| ==> !levels[i].isCompleted
  {
    Summary(OverallProgress(levels), Count(levels, IsCompleted()), |levels|)
  }

  /** The sum of valid progresses lies between 0 and 100 per level, and reaches the top only
      when every level is at 100. */
  lemma {:induction false} SumBounds(levels: seq<Level>)
    requires ProgressesValid(levels)
    ensures 0 <= SumOf(levels, ProgressOf()) <= 100 * |levels|
    ensures SumOf(levels, ProgressOf()) == 100 * |levels| <==> forall i :: 0 <= i < |levels| ==> levels[i].progress == 100
  {
    if |levels| > 0 {
      assert ValidProgress(levels[0].progress);
      assert ProgressesValid(levels[1..]) by {
        forall i | 0 <= i < |levels[1..]| ensures ValidProgress(levels[1..][i].progress) {
          assert levels[1..][i] == levels[i + 1];
        }
      }
      SumBounds(levels[1..]);
      if forall i :: 0 <= i < |levels| ==> levels[i].progress == 100 {
        forall i | 0 <= i < |levels[1..]| ensures levels[1..][i].progress == 100 {
          assert levels[1..][i] == levels[i + 1];
        }
      }
      if forall i :: 0 <= i < |levels[1..]| ==> levels[1..][i].progress == 100 {
        if levels[0].progress == 100 {
          forall i | 0 <= i < |levels| ensures levels[i].progress == 100 {
            if i > 0 {
              assert levels[i] == levels[1..][i - 1];
            }
          }
        }
      }
    }
  }

  /** The sum of progresses is at most the number of levels times any upper bound `m` of them. */
  lemma {:induction false} SumAtMost(levels: seq<Level>, m: int)
    requires forall i :: 0 <= i < |levels| ==> levels[i].progress <= m
    ensures SumOf(levels, ProgressOf()) <= |levels| * m
  {
    if |levels| > 0 {
      forall i | 0 <= i < |levels[1..]| ensures levels[1..][i].progress <= m {
        assert levels[1..][i] == levels[i + 1];
      }
      SumAtMost(levels[1..], m);
    }
  }

  /** A level whose progress is the largest. */
  function Highest(levels: seq<Level>): (k: int)
    requires |levels| > 0
    ensures 0 <= k < |levels| && forall i :: 0 <= i < |levels| ==> levels[i].progress <= levels[k].progress
  {
    if |levels| == 1 then 0
    else
      var k := Highest(levels[1..]) + 1;
      assert forall i :: 1 <= i < |levels| ==> levels[i] == levels[1..][i - 1];
      if levels[0].progress >= levels[k].progress then 0 else k
  }

  /** A mean of values at most `m` is at most `m`. */
  lemma MeanAtMost(sum: int, n: int, m: int)
    requires n > 0 && 0 <= sum <= n * m
    ensures sum / n <= m
  {
    DivMonotone(sum, n * m, n);
    DivUnique(n * m, n, m);
  }

  /** With valid progresses the overall progress lies in 0..100 and is never above the largest
      level progress; it is 100 exactly when there are levels and all of them are at 100. */
  lemma {:induction false} OverallProgressBounds(levels: seq<Level>)
    requires ProgressesValid(levels)
    ensures ValidProgress(OverallProgress(levels))
    ensures |levels| > 0 ==> OverallProgress(levels) <= levels[Highest(levels)].progress
    ensures OverallProgress(levels) == 100 <==>
      |levels| > 0 && forall i :: 0 <= i < |levels| ==> levels[i].progress == 100
  {
    if |levels| > 0 {
      var n := |levels|;
      var sum := SumOf(levels, ProgressOf());
      SumBounds(levels);
      MeanAtMost(sum, n, 100);
      DivAtLeast(sum, n, 100);
      var m := levels[Highest(levels)].progress;
      SumAtMost(levels, m);
      MeanAtMost(sum, n, m);
    }
  }

  /** The levels mirror the store: level `i + 1` has a valid progress, and is at 100 and
      completed exactly when all its lessons are done. */
  ghost predicate MirrorsStore(levels: seq<Level>, s: Store)
  {
    && |levels| == LevelCount
    && ProgressesValid(levels)
    && forall i :: 0 <= i < |levels| ==>
         && (levels[i].progress == 100 <==> AllLessonsDone(s, i + 1))
         && (levels[i].isCompleted <==> AllLessonsDone(s, i + 1))
  }

  /** The summary of levels that mirror the store. */
  lemma {:induction false} SummaryOfMirror(levels: seq<Level>, s: Store)
    requires MirrorsStore(levels, s)
    ensures var r := LoadProgress(levels);
      && r.totalLevels == LevelCount
      && ValidProgress(r.overallProgress)
      && (r.overallProgress == 100 <==> forall levelId :: 1 <= levelId <= LevelCount ==> AllLessonsDone(s, levelId))
      && (r.completedLevels == LevelCount <==> r.overallProgress == 100)
  {
    OverallProgressBounds(levels);
    if forall levelId :: 1 <= levelId <= LevelCount ==> AllLessonsDone(s, levelId) {
      forall i | 0 <= i < |levels| ensures levels[i].progress == 100 {
        assert AllLessonsDone(s, i + 1);
      }
    }
    if forall i :: 0 <= i < |levels| ==> levels[i].progress == 100 {
      forall levelId | 1 <= levelId <= LevelCount ensures AllLessonsDone(s, levelId) {
        assert levels[levelId - 1].progress == 100;
      }
    }
  }

  /** On a store the app wrote, the summary of the catalog's levels has every level counted,
      its overall progress in 0..100, and shows 100% exactly when every lesson of every level
      is done, which is also when every level is counted completed. */
  lemma {:induction false} SummaryOfStore(catalog: seq<Level>, s: Store)
    requires CatalogShaped(catalog) && Consistent(catalog, s)
    ensures var r := LoadProgress(GetAllLevels(catalog, s));
      && r.totalLevels == LevelCount
      && ValidProgress(r.overallProgress)
      && (r.overallProgress == 100 <==> forall levelId :: 1 <= levelId <= LevelCount ==> AllLessonsDone(s, levelId))
      && (r.completedLevels == LevelCount <==> r.overallProgress == 100)
  {
    var levels := GetAllLevels(catalog, s);
    forall i | 0 <= i < |levels|
      ensures ValidProgress(levels[i].progress)
      ensures levels[i].progress == 100 <==> AllLessonsDone(s, i + 1)
      ensures levels[i].isCompleted <==> AllLessonsDone(s, i + 1)
    {
      StoredLevel(catalog, s, i);
    }
    SummaryOfMirror(levels, s);
  }

  /** The `i`-th level `getAllLevels` returns from a store the app wrote is level `i + 1`, with
      its progress in 0..100, and it is at 100 and completed exactly when all its lessons are
      done. */
  lemma {:induction false} StoredLevel(catalog: seq<Level>, s: Store, i: int)
    requires CatalogShaped(catalog) && Consistent(catalog, s) && 0 <= i < LevelCount
    ensures |GetAllLevels(catalog, s)| == LevelCount
    ensures var level := GetAllLevels(catalog, s)[i];
      && level.id == i + 1
      && ValidProgress(level.progress)
      && (level.progress == 100 <==> AllLessonsDone(s, i + 1))
      && (level.isCompleted <==> AllLessonsDone(s, i + 1))
  {
    assert catalog[i].id == i + 1 by {
      assert CatalogLevel(catalog[i], i + 1);
    }
    GetAllLevelsDecorates(catalog, s);
    ProgressInRange(catalog, s, i + 1);
  }

  /** On a fresh store the summary is 0% with no level completed, out of five. */
  lemma {:induction false} FreshSummary(catalog: seq<Level>)
    requires CatalogShaped(catalog)
    ensures LoadProgress(GetAllLevels(catalog, EmptyStore)) == Summary(0, 0, LevelCount)
  {
    var levels := GetAllLevels(catalog, EmptyStore);
    GetAllLevelsDecorates(catalog, EmptyStore);
    forall i | 0 <= i < |levels| ensures levels[i].progress == 0 && !levels[i].isCompleted {
      FreshStore(levels[i].id);
    }
    SumAtMost(levels, 0);
    SumBounds(levels);
  }
}
