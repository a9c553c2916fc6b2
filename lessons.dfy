/** LessonActivity: the lessons of one level with a cursor on the current lesson. A click on a
    lesson moves the cursor to it; Start Quiz opens the quiz of the current lesson; a passed
    quiz marks the lesson completed and moves the cursor on, or ends the level after its last
    lesson. Views and the lesson list's highlighting are left out; the cursor and the lesson
    the Start Quiz button names are the state. */
module Lessons {
  import opened Wrappers
  import opened Models
  import opened KotlinCollections
  import opened CatalogRules
  import opened Preferences
  import Quiz

  /** `REQUEST_CODE_QUIZ`. */
  const REQUEST_CODE_QUIZ := 1001

  /** The intent that starts the quiz: the extras `LEVEL_ID` and `LESSON_ID` and the request
      code. */
  datatype QuizRequest = QuizRequest(levelId: int, lessonId: int, requestCode: int)

  /** The test of `onActivityResult`: the quiz's answer to our request, with RESULT_OK and
      `QUIZ_COMPLETED` set (a missing extra reads as false). */
  predicate ActsOnResult(requestCode: int, resultCode: int, quizCompleted: Option<bool>)
  {
    requestCode == REQUEST_CODE_QUIZ && resultCode == Quiz.RESULT_OK && quizCompleted.GetOr(false)
  }

  /** The result a quiz session sets is acted on exactly when the quiz was passed, that is
      when its percentage is at least 70. */
  lemma {:induction false} OnlyPassedQuizzesCount(score: int, total: int)
    requires 0 <= score <= total && total > 0
    ensures var r := Quiz.ResultFor(score, total);
      ActsOnResult(REQUEST_CODE_QUIZ, r.resultCode, Some(r.quizCompleted)) <==> r.percentage >= Quiz.PassMark
  {
    Quiz.ResultForMeans(score, total);
  }

  /** A quiz activity that finished without a result (it had no questions) answers with
      RESULT_CANCELED and no extras, which is not acted on. */
  lemma QuizWithoutResultIgnored()
    ensures !ActsOnResult(REQUEST_CODE_QUIZ, Quiz.RESULT_CANCELED, None)
  {
  }

  /** LessonActivity: the store, the level shown, the cursor, the lesson the Start Quiz
      button names (the last lesson `updateCurrentLesson` showed) and whether the activity
      has finished. */
  class LessonActivity {
    const dataManager: DataManager
    var currentLevel: Option<Level>
    var currentLessonIndex: int
    var shownLesson: Option<int>
    var finished: bool

    /** The level shown is a catalog level with its catalog lessons, and the cursor is on one
        of them. */
    predicate Valid()
      reads this, dataManager
    {
      && dataManager.Valid()
      && (currentLevel.Some? ==>
            && 1 <= currentLevel.value.id <= LevelCount
            && currentLevel.value.lessons == dataManager.catalog[currentLevel.value.id - 1].lessons
            && 0 <= currentLessonIndex < |currentLevel.value.lessons|)
      && (currentLevel.None? ==> currentLessonIndex == 0)
    }

    /** `onCreate` and `loadLevel`: the level named by the extra `LEVEL_ID` (level 1 when it is
        missing), the cursor on its first lesson. */
    constructor (dm: DataManager, levelExtra: Option<int>)
      requires dm.Valid()
      ensures Valid() && dataManager == dm && !finished
      ensures currentLevel == GetLevelById(dm.catalog, dm.State(), levelExtra.GetOr(1))
      ensures currentLessonIndex == 0
      ensures shownLesson == if currentLevel.Some? then Some(0) else None
    {
      dataManager := dm;
      currentLevel := GetLevelById(dm.catalog, dm.State(), levelExtra.GetOr(1));
      currentLessonIndex := 0;
      shownLesson := None;
      finished := false;
      new;
      GetLevelByIdFinds(dm.catalog, dm.State(), levelExtra.GetOr(1));
      CatalogLessonCounts(dm.catalog);
      if currentLevel.Some? && |currentLevel.value.lessons| > 0 {
        UpdateCurrentLesson();
      }
    }

    /** `updateCurrentLesson`: the Start Quiz button names the lesson under the cursor; nothing
        happens when there is no level or the cursor is past its lessons. */
    method UpdateCurrentLesson()
      requires Valid()
      modifies this
      ensures Valid()
      ensures shownLesson == if currentLevel.Some? && currentLessonIndex < |currentLevel.value.lessons|
        then Some(currentLessonIndex) else old(shownLesson)
      ensures currentLevel == old(currentLevel) && currentLessonIndex == old(currentLessonIndex)
      ensures finished == old(finished)
    {
      if currentLevel.None? {
        return;
      }
      var lessons := currentLevel.value.lessons;
      if currentLessonIndex < |lessons| {
        shownLesson := Some(currentLessonIndex);
      }
    }

    /** The click on a lesson of the list: the cursor moves to the lesson's position. */
    method ClickLesson(lesson: Lesson)
      requires Valid() && currentLevel.Some? && lesson in currentLevel.value.lessons
      modifies this
      ensures currentLevel == old(currentLevel) && finished == old(finished)
      ensures Valid()
      ensures currentLessonIndex == IndexOf(currentLevel.value.lessons, lesson)
      ensures currentLevel.value.lessons[currentLessonIndex] == lesson
      ensures shownLesson == Some(currentLessonIndex)
    {
      currentLessonIndex := IndexOf(currentLevel.value.lessons, lesson);
      UpdateCurrentLesson();
    }

    /** `startQuizForCurrentLesson`: the request for the quiz of the lesson under the cursor,
        with the level's id; none without a level. */
    method StartQuiz() returns (request: Option<QuizRequest>)
      requires Valid()
      ensures currentLevel.None? ==> request.None?
      ensures currentLevel.Some? ==> request == Some(QuizRequest(currentLevel.value.id,
        currentLevel.value.lessons[currentLessonIndex].id, REQUEST_CODE_QUIZ))
    {
      if currentLevel.None? {
        return None;
      }
      var currentLesson := currentLevel.value.lessons[currentLessonIndex];
      return Some(QuizRequest(currentLevel.value.id, currentLesson.id, REQUEST_CODE_QUIZ));
    }

    /** `onActivityResult`: a passed quiz for our request marks the current lesson completed,
        then moves the cursor to the next lesson, or finishes after the last one; any other
        result changes nothing. */
    method OnActivityResult(requestCode: int, resultCode: int, quizCompleted: Option<bool>)
      requires Valid() && !finished
      modifies this, dataManager
      ensures Valid()
      ensures currentLevel == old(currentLevel)
      ensures !(ActsOnResult(requestCode, resultCode, quizCompleted) && currentLevel.Some?) ==>
        && dataManager.State() == old(dataManager.State())
        && currentLessonIndex == old(currentLessonIndex) && !finished && shownLesson == old(shownLesson)
      ensures ActsOnResult(requestCode, resultCode, quizCompleted) && currentLevel.Some? ==>
        var lessons := currentLevel.value.lessons;
        && dataManager.State() == AfterMarkLessonCompleted(dataManager.catalog, old(dataManager.State()),
                                    currentLevel.value.id, lessons[old(currentLessonIndex)].id)
        && (old(currentLessonIndex) < |lessons| - 1 ==>
              currentLessonIndex == old(currentLessonIndex) + 1 && !finished && shownLesson == Some(currentLessonIndex))
        && (old(currentLessonIndex) == |lessons| - 1 ==>
              currentLessonIndex == old(currentLessonIndex) && finished && shownLesson == old(shownLesson))
    {
      if requestCode == REQUEST_CODE_QUIZ && resultCode == Quiz.RESULT_OK {
        var completed := quizCompleted.GetOr(false);
        if completed {
          if currentLevel.None? {
            return;
          }
          var levelId := currentLevel.value.id;
          var lessonId := currentLevel.value.lessons[currentLessonIndex].id;
          dataManager.MarkLessonCompleted(levelId, lessonId);
          if currentLessonIndex < |currentLevel.value.lessons| - 1 {
            currentLessonIndex := currentLessonIndex + 1;
            UpdateCurrentLesson();
          } else {
            finished := true;
          }
        }
      }
    }
  }

  /** Every catalog level has lessons. */
  lemma CatalogLessonCounts(catalog: seq<Level>)
    requires CatalogShaped(catalog)
    ensures forall i :: 0 <= i < |catalog| ==> |catalog[i].lessons| == LessonCount(i + 1) > 0
  {
    forall i | 0 <= i < |catalog| ensures |catalog[i].lessons| == LessonCount(i + 1) > 0 {
      assert CatalogLevel(catalog[i], i + 1);
    }
  }

  /** The quiz started from a lesson screen loads the lesson under the cursor: the request's
      ids find it in the catalog. */
  lemma {:induction false} StartedQuizIsCurrentLesson(catalog: seq<Level>, s: Store, level: Level, index: int)
    requires CatalogShaped(catalog) && 1 <= level.id <= LevelCount
    requires level.lessons == catalog[level.id - 1].lessons && 0 <= index < |level.lessons|
    ensures GetLessonById(catalog, s, level.id, level.lessons[index].id) == Some(level.lessons[index])
  {
    assert CatalogLevel(catalog[level.id - 1], level.id);
    assert CatalogLesson(level.lessons[index], level.id, index + 1);
    GetLessonByIdFinds(catalog, s, level.id, index + 1);
  }

  /** A new user opens level 1, passes the quiz of both its lessons, and is sent back to the
      main screen: level 1 is at 100% and level 2 is unlocked. */
  method ClearLevelOne(catalog: seq<Level>) returns (request: Option<QuizRequest>, progress: int, levelTwoUnlocked: bool, finished: bool)
    requires CatalogShaped(catalog)
    ensures request == Some(QuizRequest(1, 1, REQUEST_CODE_QUIZ))
    ensures progress == 100 && levelTwoUnlocked && finished
  {
    var dm := new DataManager(catalog, EmptyStore);
    var screen := new LessonActivity(dm, Some(1));
    LevelOneOnFreshStore(catalog);
    request := screen.StartQuiz();
    screen.OnActivityResult(REQUEST_CODE_QUIZ, Quiz.RESULT_OK, Some(true));
    screen.OnActivityResult(REQUEST_CODE_QUIZ, Quiz.RESULT_OK, Some(true));
    CompletingLevelOneUnlocksLevelTwo(catalog);
    progress := GetLevelProgress(dm.State(), 1);
    levelTwoUnlocked := IsLevelUnlocked(dm.State(), 2);
    finished := screen.finished;
  }

  /** Level 1 as the lesson screen loads it from a fresh store: two lessons, with ids 1 and 2. */
  lemma {:induction false} LevelOneOnFreshStore(catalog: seq<Level>)
    requires CatalogShaped(catalog)
    ensures var level := GetLevelById(catalog, EmptyStore, 1);
      && level.Some? && level.value.id == 1 && level.value.lessons == catalog[0].lessons
      && |level.value.lessons| == 2 && level.value.lessons[0].id == 1 && level.value.lessons[1].id == 2
  {
    GetLevelByIdFinds(catalog, EmptyStore, 1);
    assert CatalogLevel(catalog[0], 1);
    assert CatalogLesson(catalog[0].lessons[0], 1, 1) && CatalogLesson(catalog[0].lessons[1], 1, 2);
  }
}
