/** DataManager's progress store and unlock policy. The app keeps its progress in a flat
    key/value store (Android shared preferences) with four kinds of key; here the keys are
    typed constructors and the store is two maps, one for the boolean entries and one for
    the integer entries. The readers and the lookups are functions on a `Store` value; the
    two writers are methods of the `DataManager` class, specified by the functions
    `AfterUpdateLevelProgress` and `AfterMarkLessonCompleted`.

    The functions take the catalog of levels as a parameter: in the app it is
    `Catalog.Levels()` (module `App` creates the `DataManager` with it), and every fact the
    store relies on is what `CatalogShaped` says of it. */
module Preferences {
  import opened Wrappers
  import opened Models
  import opened KotlinInt
  import opened KotlinCollections
  import opened CatalogRules

  /** The boolean keys: `level_N_unlocked`, `level_N_completed`, `lesson_N_M_completed`. */
  datatype BoolKey = LevelUnlocked(levelId: int) | LevelCompleted(levelId: int) | LessonDone(levelId: int, lessonId: int)

  /** The integer keys: `level_N_progress`. */
  datatype IntKey = LevelProgress(levelId: int)

  /** The contents of the store. */
  datatype Store = Store(booleans: map<BoolKey, bool>, ints: map<IntKey, int>)

  /** The store of a fresh installation. */
  const EmptyStore := Store(map[], map[])

  /** `getBoolean(key, default)`. */
  function GetBoolean(s: Store, k: BoolKey, default: bool): bool
  {
    if k in s.booleans then s.booleans[k] else default
  }

  /** `getInt(key, default)`. */
  function GetInt(s: Store, k: IntKey, default: int): int
  {
    if k in s.ints then s.ints[k] else default
  }

  /** `isLevelUnlocked`: level 1 always; a later level by its stored flag, and without one
      when the level before it is completed. */
  function IsLevelUnlocked(s: Store, levelId: int): bool
  {
    if levelId == 1 then true
    else GetBoolean(s, LevelUnlocked(levelId), IsLevelCompleted(s, levelId - 1))
  }

  /** `isLevelCompleted`. */
  function IsLevelCompleted(s: Store, levelId: int): bool
  {
    GetBoolean(s, LevelCompleted(levelId), false)
  }

  /** `getLevelProgress`. */
  function GetLevelProgress(s: Store, levelId: int): int
  {
    GetInt(s, LevelProgress(levelId), 0)
  }

  /** The `copy` in `getAllLevels`: a level with the three stored progress fields applied. */
  function Decorate(s: Store, level: Level): Level
  {
    level.(isUnlocked := IsLevelUnlocked(s, level.id), isCompleted := IsLevelCompleted(s, level.id),
           progress := GetLevelProgress(s, level.id))
  }

  /** `getAllLevels`: every catalog level, decorated. */
  function GetAllLevels(catalog: seq<Level>, s: Store): seq<Level>
  {
    seq(|catalog|, i requires 0 <= i < |catalog| => Decorate(s, catalog[i]))
  }

  /** The test `it.id == levelId` of `getLevelById`. */
  function LevelIdIs(levelId: int): Level -> bool
  {
    (l: Level) => l.id == levelId
  }

  /** The test `it.id == lessonId` of `getLessonById`. */
  function LessonIdIs(lessonId: int): Lesson -> bool
  {
    (l: Lesson) => l.id == lessonId
  }

  /** `getLevelById`. */
  function GetLevelById(catalog: seq<Level>, s: Store, levelId: int): Option<Level>
  {
    Find(GetAllLevels(catalog, s), LevelIdIs(levelId))
  }

  /** `getLessonById`. */
  function GetLessonById(catalog: seq<Level>, s: Store, levelId: int, lessonId: int): Option<Lesson>
  {
    match GetLevelById(catalog, s, levelId)
    case None => None
    case Some(level) => Find(level.lessons, LessonIdIs(lessonId))
  }

  /** The test of the `count` in `updateLevelProgress`: the lesson's flag is set. */
  function LessonDoneIn(s: Store, levelId: int): Lesson -> bool
  {
    (lesson: Lesson) => GetBoolean(s, LessonDone(levelId, lesson.id), false)
  }

  /** How many of `lessons` have their flag set under level `levelId`. */
  function CompletedLessons(s: Store, levelId: int, lessons: seq<Lesson>): nat
  {
    Count(lessons, LessonDoneIn(s, levelId))
  }

  /** Every level of the catalog has a lesson, so the progress division is defined. */
  predicate HasLessons(catalog: seq<Level>)
  {
    forall i :: 0 <= i < |catalog| ==> |catalog[i].lessons| > 0
  }

  /** The store after `updateLevelProgress(levelId)`: nothing changes for a level the catalog
      does not have; otherwise the level's progress is the floor percentage of its lessons
      whose flag is set. */
  function AfterUpdateLevelProgress(catalog: seq<Level>, s: Store, levelId: int): Store
    requires HasLessons(catalog)
  {
    match GetLevelById(catalog, s, levelId)
    case None => s
    case Some(level) =>
      GetAllLevelsDecorates(catalog, s);
      WithProgress(s, levelId, CompletedLessons(s, levelId, level.lessons) * 100 / |level.lessons|)
  }

  /** The writes of `updateLevelProgress` once the progress is known: the progress, and at 100
      the level's completed flag and the next level's unlocked flag. */
  function WithProgress(s: Store, levelId: int, progress: int): Store
  {
    var ints := s.ints[LevelProgress(levelId) := progress];
    if progress == 100 then
      Store(s.booleans[LevelCompleted(levelId) := true][LevelUnlocked(levelId + 1) := true], ints)
    else
      Store(s.booleans, ints)
  }

  /** The store with the flag of one lesson set. */
  function WithLessonDone(s: Store, levelId: int, lessonId: int): Store
  {
    s.(booleans := s.booleans[LessonDone(levelId, lessonId) := true])
  }

  /** The store after `markLessonCompleted(levelId, lessonId)`. */
  function AfterMarkLessonCompleted(catalog: seq<Level>, s: Store, levelId: int, lessonId: int): Store
    requires HasLessons(catalog)
  {
    AfterUpdateLevelProgress(catalog, WithLessonDone(s, levelId, lessonId), levelId)
  }

  /** The catalog's levels all have lessons. */
  lemma CatalogHasLessons(catalog: seq<Level>)
    requires CatalogShaped(catalog)
    ensures HasLessons(catalog)
  {
    forall i | 0 <= i < |catalog| ensures |catalog[i].lessons| > 0 {
      assert CatalogLevel(catalog[i], i + 1);
    }
  }

  // ---------------------------------------------------------------------------------------
  // Lookups

  /** `getAllLevels` keeps the catalog's levels in order with their content, and sets their
      three progress fields to what the readers return. */
  lemma GetAllLevelsDecorates(catalog: seq<Level>, s: Store)
    ensures |GetAllLevels(catalog, s)| == |catalog|
    ensures forall i :: 0 <= i < |catalog| ==>
      var l := GetAllLevels(catalog, s)[i];
      && l.id == catalog[i].id && l.title == catalog[i].title && l.description == catalog[i].description
      && l.iconResource == catalog[i].iconResource && l.lessons == catalog[i].lessons
      && l.isUnlocked == IsLevelUnlocked(s, l.id) && l.isCompleted == IsLevelCompleted(s, l.id)
      && l.progress == GetLevelProgress(s, l.id)
  {
  }

  /** On the catalog, `getAllLevels` returns the levels 1 .. 5 in order, with their lessons as
      the catalog builds them: the lessons themselves are never marked completed, only the
      levels carry progress. */
  lemma {:induction false} GetAllLevelsOfCatalog(catalog: seq<Level>, s: Store)
    requires CatalogShaped(catalog)
    ensures |GetAllLevels(catalog, s)| == LevelCount
    ensures forall i :: 0 <= i < LevelCount ==>
      var l := GetAllLevels(catalog, s)[i];
      && l.id == i + 1 && |l.lessons| == LessonCount(i + 1) && l.lessons == catalog[i].lessons
      && (forall j :: 0 <= j < |l.lessons| ==> !l.lessons[j].isCompleted)
  {
    GetAllLevelsDecorates(catalog, s);
    forall i | 0 <= i < LevelCount
      ensures forall j :: 0 <= j < |catalog[i].lessons| ==> !catalog[i].lessons[j].isCompleted
    {
      assert CatalogLevel(catalog[i], i + 1);
    }
  }

  /** `getLevelById` finds exactly the levels 1 .. 5, decorated, and returns null otherwise. */
  lemma {:induction false} GetLevelByIdFinds(catalog: seq<Level>, s: Store, levelId: int)
    requires CatalogShaped(catalog)
    ensures GetLevelById(catalog, s, levelId).Some? <==> 1 <= levelId <= LevelCount
    ensures 1 <= levelId <= LevelCount ==> GetLevelById(catalog, s, levelId) == Some(Decorate(s, catalog[levelId - 1]))
  {
    var all := GetAllLevels(catalog, s);
    GetAllLevelsOfCatalog(catalog, s);
    if 1 <= levelId <= LevelCount {
      FindAt(all, LevelIdIs(levelId), levelId - 1);
    } else {
      assert forall i :: 0 <= i < |all| ==> !LevelIdIs(levelId)(all[i]);
    }
  }

  /** `getLessonById` finds exactly lesson `lessonId` of level `levelId` when both exist in the
      catalog, and returns null otherwise. */
  lemma {:induction false} GetLessonByIdFinds(catalog: seq<Level>, s: Store, levelId: int, lessonId: int)
    requires CatalogShaped(catalog)
    ensures GetLessonById(catalog, s, levelId, lessonId).Some? <==>
      1 <= levelId <= LevelCount && 1 <= lessonId <= LessonCount(levelId)
    ensures 1 <= levelId <= LevelCount && 1 <= lessonId <= LessonCount(levelId) ==>
      GetLessonById(catalog, s, levelId, lessonId) == Some(catalog[levelId - 1].lessons[lessonId - 1])
  {
    GetLevelByIdFinds(catalog, s, levelId);
    if 1 <= levelId <= LevelCount {
      var lessons := catalog[levelId - 1].lessons;
      assert CatalogLevel(catalog[levelId - 1], levelId);
      assert forall j :: 0 <= j < |lessons| ==> lessons[j].id == j + 1 by {
        forall j | 0 <= j < |lessons| ensures lessons[j].id == j + 1 {
          assert CatalogLesson(lessons[j], levelId, j + 1);
        }
      }
      if 1 <= lessonId <= LessonCount(levelId) {
        FindAt(lessons, LessonIdIs(lessonId), lessonId - 1);
      } else {
        assert forall j :: 0 <= j < |lessons| ==> !LessonIdIs(lessonId)(lessons[j]);
      }
    }
  }

  // ---------------------------------------------------------------------------------------
  // The unlock policy

  /** Level 1 is unlocked whatever the store holds. */
  lemma LevelOneAlwaysUnlocked(s: Store)
    ensures IsLevelUnlocked(s, 1)
  {
  }

  /** On a fresh store, level 1 is the only unlocked level, nothing is completed and every
      progress is 0. */
  lemma FreshStore(levelId: int)
    ensures IsLevelUnlocked(EmptyStore, levelId) <==> levelId == 1
    ensures !IsLevelCompleted(EmptyStore, levelId) && GetLevelProgress(EmptyStore, levelId) == 0
  {
  }

  // ---------------------------------------------------------------------------------------
  // The writers

  /** `markLessonCompleted(levelId, lessonId)` for a level outside the catalog only sets the
      lesson's flag: `updateLevelProgress` finds no level and returns. */
  lemma {:induction false} MarkOutsideCatalogSetsOnlyFlag(catalog: seq<Level>, s: Store, levelId: int, lessonId: int)
    requires CatalogShaped(catalog)
    requires !(1 <= levelId <= LevelCount)
    ensures HasLessons(catalog) && AfterMarkLessonCompleted(catalog, s, levelId, lessonId) == WithLessonDone(s, levelId, lessonId)
  {
    CatalogHasLessons(catalog);
    GetLevelByIdFinds(catalog, WithLessonDone(s, levelId, lessonId), levelId);
  }

  /** What `updateLevelProgress(levelId)` writes for a catalog level: the floor percentage of the
      level's lessons whose flag is set, which lies in 0..100 and is 100 exactly when every
      lesson is flagged; at 100 also the level's completed flag and the next level's unlocked
      flag, and below 100 no flag. Nothing else changes. */
  lemma {:induction false} UpdateLevelProgressWrites(catalog: seq<Level>, s: Store, levelId: int)
    requires CatalogShaped(catalog) && 1 <= levelId <= LevelCount
    ensures HasLessons(catalog)
    ensures HasLessons(catalog) &&
      var r := AfterUpdateLevelProgress(catalog, s, levelId);
      var lessons := catalog[levelId - 1].lessons;
      var c := CompletedLessons(s, levelId, lessons);
      var progress := c * 100 / |lessons|;
      && |lessons| == LessonCount(levelId)
      && r == WithProgress(s, levelId, progress)
      && 0 <= progress <= 100
      && (progress == 100 <==> c == |lessons|)
      && r.ints == s.ints[LevelProgress(levelId) := progress]
      && (c == |lessons| ==> r.booleans == s.booleans[LevelCompleted(levelId) := true][LevelUnlocked(levelId + 1) := true])
      && (c < |lessons| ==> r.booleans == s.booleans)
  {
    CatalogHasLessons(catalog);
    GetLevelByIdFinds(catalog, s, levelId);
    var lessons := catalog[levelId - 1].lessons;
    assert CatalogLevel(catalog[levelId - 1], levelId);
    PercentBounds(CompletedLessons(s, levelId, lessons), |lessons|);
  }

  /** Only the flags of the level's own lessons 1 .. `LessonCount(levelId)` enter its progress:
      two stores that agree on those count the same, whatever other lesson ids they flag. */
  lemma {:induction false} ForeignLessonFlagsIgnored(catalog: seq<Level>, s: Store, t: Store, levelId: int)
    requires CatalogShaped(catalog) && 1 <= levelId <= LevelCount
    requires forall j :: 1 <= j <= LessonCount(levelId) ==>
      GetBoolean(s, LessonDone(levelId, j), false) == GetBoolean(t, LessonDone(levelId, j), false)
    ensures CompletedLessons(s, levelId, catalog[levelId - 1].lessons) == CompletedLessons(t, levelId, catalog[levelId - 1].lessons)
  {
    var lessons := catalog[levelId - 1].lessons;
    assert CatalogLevel(catalog[levelId - 1], levelId);
    forall j | 0 <= j < |lessons| ensures LessonDoneIn(s, levelId)(lessons[j]) == LessonDoneIn(t, levelId)(lessons[j]) {
      assert CatalogLesson(lessons[j], levelId, j + 1);
    }
    CountAgrees(lessons, LessonDoneIn(s, levelId), LessonDoneIn(t, levelId));
  }

  // ---------------------------------------------------------------------------------------
  // Which stores the app can reach

  /** No stored flag is false: the app only ever writes `true`. */
  predicate NoFalseFlags(s: Store)
  {
    forall k :: k in s.booleans ==> s.booleans[k]
  }

  /** Every catalog level's stored progress is the floor percentage of its flagged lessons. */
  predicate ProgressMatches(catalog: seq<Level>, s: Store)
    requires HasLessons(catalog)
  {
    forall levelId :: 1 <= levelId <= |catalog| ==>
      GetLevelProgress(s, levelId) == CompletedLessons(s, levelId, catalog[levelId - 1].lessons) * 100 / |catalog[levelId - 1].lessons|
  }

  /** A catalog level is completed exactly when its progress is 100. */
  predicate CompletedMatches(s: Store)
  {
    forall levelId :: 1 <= levelId <= LevelCount ==> (IsLevelCompleted(s, levelId) <==> GetLevelProgress(s, levelId) == 100)
  }

  /** Progress and completion are only ever stored for catalog levels. */
  predicate KeysInCatalog(s: Store)
  {
    && (forall k :: k in s.ints ==> 1 <= k.levelId <= LevelCount)
    && (forall k :: k in s.booleans && k.LevelCompleted? ==> 1 <= k.levelId <= LevelCount)
  }

  /** A level's unlocked flag is only stored once the level before it is completed. */
  predicate UnlocksFollowCompletion(s: Store)
  {
    forall k :: k in s.booleans && k.LevelUnlocked? ==> IsLevelCompleted(s, k.levelId - 1)
  }

  /** What holds of every store the app writes, starting from the empty one. */
  predicate Consistent(catalog: seq<Level>, s: Store)
  {
    && |catalog| == LevelCount && HasLessons(catalog)
    && NoFalseFlags(s) && ProgressMatches(catalog, s) && CompletedMatches(s)
    && KeysInCatalog(s) && UnlocksFollowCompletion(s)
  }

  /** The two stores hold the same lesson flags. */
  ghost predicate SameLessonFlags(s: Store, t: Store)
  {
    forall a, b :: GetBoolean(s, LessonDone(a, b), false) == GetBoolean(t, LessonDone(a, b), false)
  }

  /** Every flag of `s` is in `t`, and a set flag stays set. */
  predicate BooleansGrow(s: Store, t: Store)
  {
    forall k :: k in s.booleans ==> k in t.booleans && (s.booleans[k] ==> t.booleans[k])
  }

  /** Every progress of `s` is in `t`, and none is smaller. */
  predicate ProgressGrows(s: Store, t: Store)
  {
    forall k :: k in s.ints ==> k in t.ints && s.ints[k] <= t.ints[k]
  }

  /** The empty store is consistent. */
  lemma {:induction false} EmptyStoreConsistent(catalog: seq<Level>)
    requires CatalogShaped(catalog)
    ensures Consistent(catalog, EmptyStore)
  {
    CatalogHasLessons(catalog);
    forall levelId | 1 <= levelId <= |catalog|
      ensures GetLevelProgress(EmptyStore, levelId) == CompletedLessons(EmptyStore, levelId, catalog[levelId - 1].lessons) * 100 / |catalog[levelId - 1].lessons|
    {
      assert CompletedLessons(EmptyStore, levelId, catalog[levelId - 1].lessons) == 0;
    }
  }

  /** Stores with the same lesson flags count the same lessons as done. */
  lemma SameLessonFlagsCount(s: Store, t: Store, levelId: int, lessons: seq<Lesson>)
    requires SameLessonFlags(s, t)
    ensures CompletedLessons(s, levelId, lessons) == CompletedLessons(t, levelId, lessons)
  {
    assert forall j :: 0 <= j < |lessons| ==> LessonDoneIn(s, levelId)(lessons[j]) == LessonDoneIn(t, levelId)(lessons[j]);
    CountAgrees(lessons, LessonDoneIn(s, levelId), LessonDoneIn(t, levelId));
  }

  /** Setting one lesson's flag changes no other level's count, and never lowers the count of
      its own level. */
  lemma WithLessonDoneCount(s: Store, levelId: int, lessonId: int, other: int, lessons: seq<Lesson>)
    ensures other != levelId ==>
      CompletedLessons(WithLessonDone(s, levelId, lessonId), other, lessons) == CompletedLessons(s, other, lessons)
    ensures CompletedLessons(s, other, lessons) <= CompletedLessons(WithLessonDone(s, levelId, lessonId), other, lessons)
  {
    var s1 := WithLessonDone(s, levelId, lessonId);
    if other != levelId {
      assert forall j :: 0 <= j < |lessons| ==> LessonDoneIn(s, other)(lessons[j]) == LessonDoneIn(s1, other)(lessons[j]);
      CountAgrees(lessons, LessonDoneIn(s, other), LessonDoneIn(s1, other));
    }
    CountMonotone(lessons, LessonDoneIn(s, other), LessonDoneIn(s1, other));
  }

  /** The writes of `updateLevelProgress` touch no lesson flag, remove no entry and clear no
      flag. */
  lemma WithProgressKeepsFlags(s: Store, levelId: int, progress: int)
    ensures SameLessonFlags(s, WithProgress(s, levelId, progress))
    ensures BooleansGrow(s, WithProgress(s, levelId, progress))
    ensures s.ints.Keys <= WithProgress(s, levelId, progress).ints.Keys
  {
  }

  /** Setting a lesson's flag on a level outside the catalog keeps the store consistent. */
  lemma {:induction false} FlagOutsideCatalogKeepsConsistent(catalog: seq<Level>, s: Store, levelId: int, lessonId: int)
    requires Consistent(catalog, s) && !(1 <= levelId <= LevelCount)
    ensures Consistent(catalog, WithLessonDone(s, levelId, lessonId))
  {
    var t := WithLessonDone(s, levelId, lessonId);
    forall other | 1 <= other <= |catalog|
      ensures GetLevelProgress(t, other) == CompletedLessons(t, other, catalog[other - 1].lessons) * 100 / |catalog[other - 1].lessons|
    {
      WithLessonDoneCount(s, levelId, lessonId, other, catalog[other - 1].lessons);
      assert GetLevelProgress(s, other) == CompletedLessons(s, other, catalog[other - 1].lessons) * 100 / |catalog[other - 1].lessons|;
    }
    assert CompletedMatches(t) by {
      forall other | 1 <= other <= LevelCount
        ensures IsLevelCompleted(t, other) == IsLevelCompleted(s, other) && GetLevelProgress(t, other) == GetLevelProgress(s, other)
      {
      }
    }
    assert UnlocksFollowCompletion(t) by {
      forall k | k in t.booleans && k.LevelUnlocked? ensures IsLevelCompleted(t, k.levelId - 1) {
        assert k in s.booleans && IsLevelCompleted(s, k.levelId - 1);
      }
    }
  }

  /** The store after `markLessonCompleted` on a catalog level, written out. */
  function MarkStep(catalog: seq<Level>, s: Store, levelId: int, lessonId: int): Store
    requires HasLessons(catalog) && 1 <= levelId <= |catalog|
  {
    var s1 := WithLessonDone(s, levelId, lessonId);
    WithProgress(s1, levelId, Percentage(catalog, s1, levelId))
  }

  /** In `MarkStep`, the level's new progress is no smaller than its old one, and other levels
      keep their counts. */
  lemma {:induction false} MarkStepCounts(catalog: seq<Level>, s: Store, levelId: int, lessonId: int, other: int)
    requires HasLessons(catalog) && 1 <= levelId <= |catalog| && 1 <= other <= |catalog|
    ensures var lessons := catalog[other - 1].lessons;
      var t := MarkStep(catalog, s, levelId, lessonId);
      && (other != levelId ==> CompletedLessons(t, other, lessons) == CompletedLessons(s, other, lessons))
      && CompletedLessons(s, other, lessons) * 100 / |lessons| <= CompletedLessons(t, other, lessons) * 100 / |lessons|
  {
    var s1 := WithLessonDone(s, levelId, lessonId);
    var lessons := catalog[other - 1].lessons;
    var t := MarkStep(catalog, s, levelId, lessonId);
    WithLessonDoneCount(s, levelId, lessonId, other, lessons);
    WithProgressKeepsFlags(s1, levelId, CompletedLessons(s1, levelId, catalog[levelId - 1].lessons) * 100 / |catalog[levelId - 1].lessons|);
    SameLessonFlagsCount(s1, t, other, lessons);
    MulMonotone(CompletedLessons(s, other, lessons), CompletedLessons(t, other, lessons), 100);
    DivMonotone(CompletedLessons(s, other, lessons) * 100, CompletedLessons(t, other, lessons) * 100, |lessons|);
  }

  /** The floor percentage of level `levelId`'s flagged lessons in `s`. */
  function Percentage(catalog: seq<Level>, s: Store, levelId: int): int
    requires HasLessons(catalog) && 1 <= levelId <= |catalog|
  {
    CompletedLessons(s, levelId, catalog[levelId - 1].lessons) * 100 / |catalog[levelId - 1].lessons|
  }

  /** `MarkStep` keeps one catalog level's progress equal to its percentage. */
  lemma {:induction false} MarkStepProgressAt(catalog: seq<Level>, s: Store, levelId: int, lessonId: int, other: int)
    requires HasLessons(catalog) && 1 <= levelId <= |catalog| && 1 <= other <= |catalog|
    requires other != levelId ==> GetLevelProgress(s, other) == Percentage(catalog, s, other)
    ensures GetLevelProgress(MarkStep(catalog, s, levelId, lessonId), other) == Percentage(catalog, MarkStep(catalog, s, levelId, lessonId), other)
  {
    var s1 := WithLessonDone(s, levelId, lessonId);
    var t := MarkStep(catalog, s, levelId, lessonId);
    if other == levelId {
      WithProgressKeepsFlags(s1, levelId, Percentage(catalog, s1, levelId));
      SameLessonFlagsCount(s1, t, other, catalog[other - 1].lessons);
      assert GetLevelProgress(t, levelId) == Percentage(catalog, s1, levelId);
    } else {
      MarkStepCounts(catalog, s, levelId, lessonId, other);
      assert GetLevelProgress(t, other) == GetLevelProgress(s, other);
    }
  }

  /** `MarkStep` keeps one catalog level's completion equal to progress 100. */
  lemma {:induction false} MarkStepCompletedAt(catalog: seq<Level>, s: Store, levelId: int, lessonId: int, other: int)
    requires HasLessons(catalog) && 1 <= levelId <= |catalog| && 1 <= other <= |catalog|
    requires GetLevelProgress(s, other) == Percentage(catalog, s, other)
    requires IsLevelCompleted(s, other) <==> GetLevelProgress(s, other) == 100
    ensures var t := MarkStep(catalog, s, levelId, lessonId);
      IsLevelCompleted(t, other) <==> GetLevelProgress(t, other) == 100
  {
    var s1 := WithLessonDone(s, levelId, lessonId);
    var t := MarkStep(catalog, s, levelId, lessonId);
    if other == levelId {
      var lessons := catalog[levelId - 1].lessons;
      WithLessonDoneCount(s, levelId, lessonId, levelId, lessons);
      MulMonotone(CompletedLessons(s, levelId, lessons), CompletedLessons(s1, levelId, lessons), 100);
      DivMonotone(CompletedLessons(s, levelId, lessons) * 100, CompletedLessons(s1, levelId, lessons) * 100, |lessons|);
      assert GetLevelProgress(t, levelId) == Percentage(catalog, s1, levelId);
    } else {
      assert GetLevelProgress(t, other) == GetLevelProgress(s, other);
      assert IsLevelCompleted(t, other) == IsLevelCompleted(s, other);
    }
  }

  /** `MarkStep` keeps every catalog level's progress equal to its percentage. */
  lemma {:induction false} MarkStepProgressMatches(catalog: seq<Level>, s: Store, levelId: int, lessonId: int)
    requires Consistent(catalog, s) && 1 <= levelId <= LevelCount
    ensures ProgressMatches(catalog, MarkStep(catalog, s, levelId, lessonId))
  {
    var t := MarkStep(catalog, s, levelId, lessonId);
    forall other | 1 <= other <= |catalog|
      ensures GetLevelProgress(t, other) == CompletedLessons(t, other, catalog[other - 1].lessons) * 100 / |catalog[other - 1].lessons|
    {
      MarkStepProgressAt(catalog, s, levelId, lessonId, other);
    }
  }

  /** `MarkStep` keeps completion equal to progress 100. */
  lemma {:induction false} MarkStepCompletedMatches(catalog: seq<Level>, s: Store, levelId: int, lessonId: int)
    requires Consistent(catalog, s) && 1 <= levelId <= LevelCount
    ensures CompletedMatches(MarkStep(catalog, s, levelId, lessonId))
  {
    var t := MarkStep(catalog, s, levelId, lessonId);
    forall other | 1 <= other <= LevelCount
      ensures IsLevelCompleted(t, other) <==> GetLevelProgress(t, other) == 100
    {
      MarkStepCompletedAt(catalog, s, levelId, lessonId, other);
    }
  }

  /** `MarkStep` keeps the remaining parts of consistency. */
  lemma {:induction false} MarkStepKeepsFlagsRight(catalog: seq<Level>, s: Store, levelId: int, lessonId: int)
    requires Consistent(catalog, s) && 1 <= levelId <= LevelCount
    ensures NoFalseFlags(MarkStep(catalog, s, levelId, lessonId))
    ensures KeysInCatalog(MarkStep(catalog, s, levelId, lessonId))
    ensures UnlocksFollowCompletion(MarkStep(catalog, s, levelId, lessonId))
  {
    var t := MarkStep(catalog, s, levelId, lessonId);
    var s1 := WithLessonDone(s, levelId, lessonId);
    WithProgressKeepsFlags(s1, levelId, CompletedLessons(s1, levelId, catalog[levelId - 1].lessons) * 100 / |catalog[levelId - 1].lessons|);
    forall k | k in t.booleans && k.LevelUnlocked? ensures IsLevelCompleted(t, k.levelId - 1) {
      if k in s.booleans {
        assert IsLevelCompleted(s, k.levelId - 1);
      }
    }
  }

  /** Every store the app reaches is consistent: `markLessonCompleted` keeps consistency. */
  lemma {:induction false} MarkLessonCompletedKeepsConsistent(catalog: seq<Level>, s: Store, levelId: int, lessonId: int)
    requires CatalogShaped(catalog) && Consistent(catalog, s)
    ensures Consistent(catalog, AfterMarkLessonCompleted(catalog, s, levelId, lessonId))
  {
    if 1 <= levelId <= LevelCount {
      UpdateLevelProgressWrites(catalog, WithLessonDone(s, levelId, lessonId), levelId);
      assert AfterMarkLessonCompleted(catalog, s, levelId, lessonId) == MarkStep(catalog, s, levelId, lessonId);
      MarkStepProgressMatches(catalog, s, levelId, lessonId);
      MarkStepCompletedMatches(catalog, s, levelId, lessonId);
      MarkStepKeepsFlagsRight(catalog, s, levelId, lessonId);
    } else {
      MarkOutsideCatalogSetsOnlyFlag(catalog, s, levelId, lessonId);
      FlagOutsideCatalogKeepsConsistent(catalog, s, levelId, lessonId);
    }
  }

  // ---------------------------------------------------------------------------------------
  // What the store promises

  /** Every lesson 1 .. `LessonCount(levelId)` of the level has its flag set. */
  predicate AllLessonsDone(s: Store, levelId: int)
    requires 1 <= levelId <= LevelCount
  {
    forall j :: 1 <= j <= LessonCount(levelId) ==> GetBoolean(s, LessonDone(levelId, j), false)
  }

  /** All of a catalog level's lessons are counted exactly when every one of its lessons is
      flagged. */
  lemma {:induction false} CompletedLessonsAll(catalog: seq<Level>, s: Store, levelId: int)
    requires CatalogShaped(catalog) && 1 <= levelId <= LevelCount
    ensures CompletedLessons(s, levelId, catalog[levelId - 1].lessons) == |catalog[levelId - 1].lessons| <==> AllLessonsDone(s, levelId)
  {
    var lessons := catalog[levelId - 1].lessons;
    assert CatalogLevel(catalog[levelId - 1], levelId);
    forall j | 0 <= j < |lessons| ensures lessons[j].id == j + 1 {
      assert CatalogLesson(lessons[j], levelId, j + 1);
    }
    if AllLessonsDone(s, levelId) {
      assert forall j :: 0 <= j < |lessons| ==> LessonDoneIn(s, levelId)(lessons[j]);
    }
    if CompletedLessons(s, levelId, lessons) == |lessons| {
      forall j | 1 <= j <= LessonCount(levelId) ensures GetBoolean(s, LessonDone(levelId, j), false) {
        assert LessonDoneIn(s, levelId)(lessons[j - 1]);
      }
    }
  }

  /** In a consistent store a level after the first is unlocked exactly when the level before
      it is completed, stored flag or not. */
  lemma UnlockedIffPreviousCompleted(catalog: seq<Level>, s: Store, levelId: int)
    requires Consistent(catalog, s)
    ensures IsLevelUnlocked(s, levelId) <==> levelId == 1 || IsLevelCompleted(s, levelId - 1)
  {
    if levelId != 1 && LevelUnlocked(levelId) in s.booleans {
      assert s.booleans[LevelUnlocked(levelId)];
      assert IsLevelCompleted(s, LevelUnlocked(levelId).levelId - 1);
    }
  }

  /** In a consistent store every level's progress lies in 0..100; a catalog level's progress is
      100, and the level completed, exactly when all its lessons are flagged; a level outside
      the catalog has progress 0 and is never completed. */
  lemma {:induction false} ProgressInRange(catalog: seq<Level>, s: Store, levelId: int)
    requires CatalogShaped(catalog) && Consistent(catalog, s)
    ensures 0 <= GetLevelProgress(s, levelId) <= 100
    ensures 1 <= levelId <= LevelCount ==>
      (GetLevelProgress(s, levelId) == 100 <==> AllLessonsDone(s, levelId)) &&
      (IsLevelCompleted(s, levelId) <==> AllLessonsDone(s, levelId))
    ensures !(1 <= levelId <= LevelCount) ==> GetLevelProgress(s, levelId) == 0 && !IsLevelCompleted(s, levelId)
  {
    if 1 <= levelId <= LevelCount {
      var lessons := catalog[levelId - 1].lessons;
      assert GetLevelProgress(s, levelId) == CompletedLessons(s, levelId, lessons) * 100 / |lessons|;
      PercentBounds(CompletedLessons(s, levelId, lessons), |lessons|);
      CompletedLessonsAll(catalog, s, levelId);
    } else {
      assert LevelProgress(levelId) !in s.ints;
      assert LevelCompleted(levelId) !in s.booleans;
    }
  }

  /** `markLessonCompleted` sets the lesson's flag, never stores `false`, never removes an entry
      and never clears a flag. */
  lemma {:induction false} MarkLessonCompletedOnlyAdds(catalog: seq<Level>, s: Store, levelId: int, lessonId: int)
    requires HasLessons(catalog)
    ensures var t := AfterMarkLessonCompleted(catalog, s, levelId, lessonId);
      && GetBoolean(t, LessonDone(levelId, lessonId), false)
      && BooleansGrow(s, t) && s.ints.Keys <= t.ints.Keys
      && forall k :: k in t.booleans && !t.booleans[k] ==> k in s.booleans && !s.booleans[k]
  {
    var s1 := WithLessonDone(s, levelId, lessonId);
    match GetLevelById(catalog, s1, levelId)
    case None =>
    case Some(level) =>
      GetAllLevelsDecorates(catalog, s1);
      WithProgressKeepsFlags(s1, levelId, CompletedLessons(s1, levelId, level.lessons) * 100 / |level.lessons|);
  }

  /** In a consistent store `markLessonCompleted` never lowers a stored progress. */
  lemma {:induction false} MarkLessonCompletedProgressGrows(catalog: seq<Level>, s: Store, levelId: int, lessonId: int)
    requires CatalogShaped(catalog) && Consistent(catalog, s)
    ensures ProgressGrows(s, AfterMarkLessonCompleted(catalog, s, levelId, lessonId))
  {
    if 1 <= levelId <= LevelCount {
      UpdateLevelProgressWrites(catalog, WithLessonDone(s, levelId, lessonId), levelId);
      var t := MarkStep(catalog, s, levelId, lessonId);
      assert AfterMarkLessonCompleted(catalog, s, levelId, lessonId) == t;
      var lessons := catalog[levelId - 1].lessons;
      var s1 := WithLessonDone(s, levelId, lessonId);
      WithLessonDoneCount(s, levelId, lessonId, levelId, lessons);
      MulMonotone(CompletedLessons(s, levelId, lessons), CompletedLessons(s1, levelId, lessons), 100);
      DivMonotone(CompletedLessons(s, levelId, lessons) * 100, CompletedLessons(s1, levelId, lessons) * 100, |lessons|);
      assert GetLevelProgress(s, levelId) == Percentage(catalog, s, levelId);
    } else {
      MarkOutsideCatalogSetsOnlyFlag(catalog, s, levelId, lessonId);
    }
  }

  /** Repeating the writes of `updateLevelProgress` with the same progress changes nothing. */
  lemma WithProgressIdempotent(s: Store, levelId: int, progress: int)
    ensures WithProgress(WithProgress(s, levelId, progress), levelId, progress) == WithProgress(s, levelId, progress)
  {
    var t := WithProgress(s, levelId, progress);
    assert t.ints[LevelProgress(levelId) := progress] == t.ints;
    if progress == 100 {
      assert t.booleans[LevelCompleted(levelId) := true][LevelUnlocked(levelId + 1) := true] == t.booleans;
    }
  }

  /** `markLessonCompleted` is idempotent: calling it again with the same arguments leaves the
      store as the first call left it. */
  lemma {:induction false} MarkLessonCompletedIdempotent(catalog: seq<Level>, s: Store, levelId: int, lessonId: int)
    requires CatalogShaped(catalog)
    ensures HasLessons(catalog)
    ensures HasLessons(catalog) &&
      var t := AfterMarkLessonCompleted(catalog, s, levelId, lessonId);
      AfterMarkLessonCompleted(catalog, t, levelId, lessonId) == t
  {
    CatalogHasLessons(catalog);
    var t := AfterMarkLessonCompleted(catalog, s, levelId, lessonId);
    MarkLessonCompletedOnlyAdds(catalog, s, levelId, lessonId);
    assert WithLessonDone(t, levelId, lessonId) == t by {
      assert t.booleans[LessonDone(levelId, lessonId) := true] == t.booleans;
    }
    if 1 <= levelId <= LevelCount {
      var s1 := WithLessonDone(s, levelId, lessonId);
      UpdateLevelProgressWrites(catalog, s1, levelId);
      UpdateLevelProgressWrites(catalog, t, levelId);
      WithProgressKeepsFlags(s1, levelId, Percentage(catalog, s1, levelId));
      SameLessonFlagsCount(s1, t, levelId, catalog[levelId - 1].lessons);
      WithProgressIdempotent(s1, levelId, Percentage(catalog, s1, levelId));
    } else {
      MarkOutsideCatalogSetsOnlyFlag(catalog, t, levelId, lessonId);
    }
  }

  /** Once every lesson of a catalog level is flagged, `markLessonCompleted` on that level
      completes it and unlocks the next level. */
  lemma {:induction false} MarkLastLessonCompletesLevel(catalog: seq<Level>, s: Store, levelId: int, lessonId: int)
    requires CatalogShaped(catalog) && 1 <= levelId <= LevelCount
    requires AllLessonsDone(WithLessonDone(s, levelId, lessonId), levelId)
    ensures HasLessons(catalog)
    ensures HasLessons(catalog) &&
      var t := AfterMarkLessonCompleted(catalog, s, levelId, lessonId);
      GetLevelProgress(t, levelId) == 100 && IsLevelCompleted(t, levelId) && IsLevelUnlocked(t, levelId + 1)
  {
    var s1 := WithLessonDone(s, levelId, lessonId);
    UpdateLevelProgressWrites(catalog, s1, levelId);
    CompletedLessonsAll(catalog, s1, levelId);
  }

  /** On a fresh store, completing lesson 1 of level 1 gives it progress 50, and neither
      completes it nor unlocks level 2. */
  lemma {:induction false} FirstLessonOfLevelOne(catalog: seq<Level>)
    requires CatalogShaped(catalog)
    ensures HasLessons(catalog)
    ensures HasLessons(catalog) &&
      var s1 := AfterMarkLessonCompleted(catalog, EmptyStore, 1, 1);
      && s1 == WithProgress(WithLessonDone(EmptyStore, 1, 1), 1, 50)
      && GetLevelProgress(s1, 1) == 50 && !IsLevelCompleted(s1, 1) && !IsLevelUnlocked(s1, 2)
  {
    var w1 := WithLessonDone(EmptyStore, 1, 1);
    UpdateLevelProgressWrites(catalog, w1, 1);
    var lessons := catalog[0].lessons;
    assert CatalogLevel(catalog[0], 1);
    assert CatalogLesson(lessons[0], 1, 1) && CatalogLesson(lessons[1], 1, 2);
    assert LessonDoneIn(w1, 1)(lessons[0]) && !LessonDoneIn(w1, 1)(lessons[1]);
    assert CompletedLessons(w1, 1, lessons) == 1;
  }

  /** The app's own scenario: on a fresh store, completing lessons 1 and 2 of level 1 gives it
      progress 100, completes it and unlocks level 2, which completing lesson 1 alone does
      not. */
  lemma {:induction false} CompletingLevelOneUnlocksLevelTwo(catalog: seq<Level>)
    requires CatalogShaped(catalog)
    ensures HasLessons(catalog)
    ensures HasLessons(catalog) &&
      var s1 := AfterMarkLessonCompleted(catalog, EmptyStore, 1, 1);
      var s2 := AfterMarkLessonCompleted(catalog, s1, 1, 2);
      && GetLevelProgress(s1, 1) == 50 && !IsLevelUnlocked(s1, 2)
      && GetLevelProgress(s2, 1) == 100 && IsLevelCompleted(s2, 1) && IsLevelUnlocked(s2, 2)
  {
    FirstLessonOfLevelOne(catalog);
    var s1 := AfterMarkLessonCompleted(catalog, EmptyStore, 1, 1);
    assert AllLessonsDone(WithLessonDone(s1, 1, 2), 1) by {
      assert GetBoolean(s1, LessonDone(1, 1), false);
    }
    MarkLastLessonCompletesLevel(catalog, s1, 1, 2);
  }

  // ---------------------------------------------------------------------------------------
  // The store as the app mutates it

  /** DataManager: the catalog and the two maps of the store. */
  class DataManager {
    const catalog: seq<Level>
    var booleans: map<BoolKey, bool>
    var ints: map<IntKey, int>

    /** The catalog is the app's. */
    predicate Valid()
    {
      CatalogShaped(catalog) && HasLessons(catalog)
    }

    /** The store's contents. */
    function State(): Store
      reads this
    {
      Store(booleans, ints)
    }

    /** A DataManager over the catalog and the store as it was persisted. */
    constructor (catalog: seq<Level>, prefs: Store)
      requires CatalogShaped(catalog)
      ensures Valid() && this.catalog == catalog && State() == prefs
    {
      this.catalog := catalog;
      booleans := prefs.booleans;
      ints := prefs.ints;
      new;
      CatalogHasLessons(catalog);
    }

    /** `markLessonCompleted(levelId, lessonId)`. */
    method MarkLessonCompleted(levelId: int, lessonId: int)
      requires Valid()
      modifies this
      ensures State() == AfterMarkLessonCompleted(catalog, old(State()), levelId, lessonId)
    {
      booleans := booleans[LessonDone(levelId, lessonId) := true];
      UpdateLevelProgress(levelId);
    }

    /** `updateLevelProgress(levelId)`. */
    method UpdateLevelProgress(levelId: int)
      requires Valid()
      modifies this
      ensures State() == AfterUpdateLevelProgress(catalog, old(State()), levelId)
    {
      var level := GetLevelById(catalog, State(), levelId);
      if level.None? {
        return;
      }
      GetAllLevelsDecorates(catalog, State());
      var lessons := level.value.lessons;
      var completedLessons := Count(lessons, LessonDoneIn(State(), levelId));
      var progress := completedLessons * 100 / |lessons|;
      ints := ints[LevelProgress(levelId) := progress];
      if progress == 100 {
        booleans := booleans[LevelCompleted(levelId) := true][LevelUnlocked(levelId + 1) := true];
      }
    }
  }
}
