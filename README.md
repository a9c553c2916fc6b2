# Solidity quiz app: progress, unlocking and quizzes

A Dafny model of the logic of an Android app that teaches Solidity in five levels. Each level
has two or three lessons, and each lesson ends with a short quiz. The model covers four parts:

- **The progress store and the unlock policy** (module `Preferences`). The app keeps flat
  key/value preferences: `level_N_unlocked`, `level_N_completed`, `level_N_progress` and
  `lesson_N_M_completed`. The readers are functions on a `Store` value. The class
  `DataManager` holds the two maps and performs the writes of `markLessonCompleted` and
  `updateLevelProgress` in place. Each method is specified by a function of the old store.
  The predicate `Consistent` describes every store the app can write, starting from an empty
  one, and `markLessonCompleted` preserves it. On such stores the lemmas prove the promised
  properties: progress lies in 0..100; the level completes and the next one unlocks exactly
  at 100; flags only grow; progress never drops; marking twice is the same as marking once.
- **The fixed catalog** (`Catalog`, `CatalogLevel1` .. `CatalogLevel5`, with the shape rules
  in `CatalogRules`). These are the five levels as `createLevel1` .. `createLevel5` build
  them, with level 1 unlocked and short stand-ins for the lessons' code samples. The lemmas prove their shape (ids, lesson counts, well-formed questions) and
  the contents the app's unit tests check.
- **The quiz session** (`Quiz`). The class `QuizActivity` holds the question index, the
  score, the recorded answers, the inputs on screen and the two buttons. It covers building
  the inputs for each kind of question, reading the answer back by the loops of
  `getUserAnswer`, scoring with `checkAnswer`, and the final percentage with its 70% pass
  rule and result code.
- **The lesson cursor and the progress displays** (`Lessons`, `ProgressAdapter`,
  `LevelAdapter`, `ProgressActivity`). The class `LessonActivity` keeps the cursor on the
  current lesson. It starts the lesson's quiz and, on a passed result, marks the lesson and
  moves on. The status and percentage computations of the two adapters and of the progress
  screen are modelled as functions.

Supporting modules: `Wrappers` (Option), `Models` (the data classes with their defaults),
and parts of Kotlin's standard library (`KotlinText`: `trim`, `joinToString`,
`equals(ignoreCase)`; `KotlinCollections`: `find`, `count`, `indexOf`, `sumOf`;
`KotlinInt`: division that rounds toward zero).

The modules below `App` take the catalog as a parameter constrained by `CatalogShaped`.
`App` fixes it to `Catalog.Levels()`.

Two behaviours of the code are worth knowing:

- The code does not guard a level without lessons: `updateLevelProgress` divides by the
  lesson count. The fixed catalog has no empty level, so the division is defined
  (`HasLessons`).
- `isLevelUnlocked` reads the stored `level_N_unlocked` flag, with the previous level's
  completion only as the default. A stored `false` would therefore win over a completed
  previous level. The app never stores `false` (`NoFalseFlags`), so on the stores the app
  writes a level is unlocked exactly when it is level 1 or the previous level is completed
  (`UnlockedIffPreviousCompleted`).

## Model

| member | source | states |
|---|---|---|
| KotlinCollections.Find | app/src/main/java/com/solidityquiz/app/data/DataManager.kt:33 | `find` returns null exactly when no element passes the test, and otherwise the first element that does |
| KotlinCollections.Count | app/src/main/java/com/solidityquiz/app/data/DataManager.kt:1010-1012 | `count` is at most the size, equals the size exactly when every element passes, and is 0 exactly when none does |
| KotlinCollections.IndexOf | app/src/main/java/com/solidityquiz/app/LessonActivity.kt:50 | `indexOf` is -1 exactly when the element is absent, and otherwise the first position holding it |
| KotlinText.Trim | app/src/main/java/com/solidityquiz/app/QuizActivity.kt:190 | `trim` leaves neither leading nor trailing white space, gives "" for an all-blank text and leaves an unpadded text as it is |
| KotlinText.TrimRemovesWhitespace | app/src/main/java/com/solidityquiz/app/QuizActivity.kt:190 | `trim` returns an infix of the text, and everything it removes before and after that infix is white space |
| KotlinText.EqualsIgnoreCaseIsLowercaseEquality | app/src/main/java/com/solidityquiz/app/QuizActivity.kt:203 | comparing with `ignoreCase = true` is comparing the lower-case forms |
| KotlinText.EqualsIgnoreCaseIsEquivalence | app/src/main/java/com/solidityquiz/app/QuizActivity.kt:203 | comparing with `ignoreCase = true` is reflexive, symmetric and transitive |
| KotlinText.EqualsIgnoreCase | app/src/main/java/com/solidityquiz/app/QuizActivity.kt:203 | `equals(ignoreCase = true)`: same length and, position by position, equal characters or the same upper-case form; `EqualsIgnoreCaseIsLowercaseEquality` and `EqualsIgnoreCaseIsEquivalence` prove what it means |
| KotlinText.Join | app/src/main/java/com/solidityquiz/app/QuizActivity.kt:192 | `joinToString(sep)`: the parts in order with `sep` between neighbours, "" for no parts; `Quiz.ExpectedBlanksPass` uses it to pack the blanks |
| KotlinCollections.SumOf | app/src/main/java/com/solidityquiz/app/ProgressActivity.kt:56 | `sumOf`: the sum of the selected values; `ProgressActivity.SumBounds` and `SumAtMost` bound it |
| KotlinInt.Div | app/src/main/java/com/solidityquiz/app/QuizActivity.kt:215 | Kotlin's `/` rounds toward zero: for a non-negative dividend it is Dafny's `/`, for a negative one the quotient rounded up |
| KotlinInt.PercentBounds | app/src/main/java/com/solidityquiz/app/data/DataManager.kt:1013 | `c * 100 / n` for 0 <= c <= n lies in 0..100 and is 100 exactly when c == n |
| Catalog.Levels | app/src/main/java/com/solidityquiz/app/data/DataManager.kt:16-22 | the five levels, ids 1..5 in order, with 2, 2, 3, 3, 3 lessons numbered from 1, level 1 unlocked and every other level locked, none completed or in progress, no lesson completed, language solidity, and every quiz question well-formed |
| Catalog.CreateLevel | app/src/main/java/com/solidityquiz/app/data/DataManager.kt:18-22 | `createLevel<id>()` builds a level of the catalog's shape for its id, unlocked exactly when it is level 1 |
| CatalogLevel1.CreateLevel1IsCatalogLevel | app/src/main/java/com/solidityquiz/app/data/DataManager.kt:40-89 | level 1 is built unlocked, and it and its two lessons have the catalog's shape and well-formed questions |
| CatalogLevel2.CreateLevel2IsCatalogLevel | app/src/main/java/com/solidityquiz/app/data/DataManager.kt:91-155 | level 2 and its two lessons have the catalog's shape and well-formed questions |
| CatalogLevel3.CreateLevel3IsCatalogLevel | app/src/main/java/com/solidityquiz/app/data/DataManager.kt:157-273 | level 3 and its three lessons have the catalog's shape and well-formed questions |
| CatalogLevel4.CreateLevel4IsCatalogLevel | app/src/main/java/com/solidityquiz/app/data/DataManager.kt:275-406 | level 4 and its three lessons have the catalog's shape and well-formed questions |
| CatalogLevel5.CreateLevel5IsCatalogLevel | app/src/main/java/com/solidityquiz/app/data/DataManager.kt:408-584 | level 5 and its three lessons have the catalog's shape and well-formed questions |
| CatalogLevel1.CreateLevel1Content | app/src/test/java/com/solidityquiz/app/DataManagerTest.kt:58-88 | level 1 is "ERC-20 Token Contract", its lessons are "ERC-20 Token Basics" and "Token Transfer Function", and lesson 1 opens with a fill-in and a multiple-choice question |
| CatalogLevel2.CreateLevel2Content | app/src/test/java/com/solidityquiz/app/DataManagerTest.kt:145-159 | level 2 is "ERC-721 NFT Contract" and its first lesson's code and explanation mention ERC721 and non-fungible |
| CatalogLevel3.CreateLevel3Content | app/src/test/java/com/solidityquiz/app/DataManagerTest.kt:161-175 | level 3 is "Crowdfunding via NFT" and its lessons' code mentions CrowdfundingNFT and contribute |
| CatalogLevel4.CreateLevel4Content | app/src/test/java/com/solidityquiz/app/DataManagerTest.kt:177-192 | level 4 is "DAO Contract" and its lessons' code mentions SimpleDAO, vote and executeProposal |
| CatalogLevel5.CreateLevel5Content | app/src/test/java/com/solidityquiz/app/DataManagerTest.kt:194-209 | level 5 is "AMM Contract & React Frontend" and its lessons' code mentions AMM, swap and React |
| Preferences.GetAllLevelsDecorates | app/src/main/java/com/solidityquiz/app/data/DataManager.kt:16-30 | `getAllLevels` keeps every catalog level's content in order and sets its three progress fields to what the readers return |
| Preferences.GetAllLevelsOfCatalog | app/src/main/java/com/solidityquiz/app/data/DataManager.kt:16-30 | on the catalog `getAllLevels` returns five levels with ids 1..5, the catalog's lessons, none of them marked completed |
| Preferences.GetLevelByIdFinds | app/src/main/java/com/solidityquiz/app/data/DataManager.kt:32-34 | `getLevelById` finds a level exactly for ids 1..5, the decorated catalog level, and returns null otherwise |
| Preferences.GetLessonByIdFinds | app/src/main/java/com/solidityquiz/app/data/DataManager.kt:36-38 | `getLessonById` finds a lesson exactly when the level is in 1..5 and the lesson id in 1..its lesson count, and it is that catalog lesson |
| Preferences.IsLevelUnlocked | app/src/main/java/com/solidityquiz/app/data/DataManager.kt:987-991 | `isLevelUnlocked`: level 1 always, a later level by its stored flag with the previous level's completion as default; `LevelOneAlwaysUnlocked`, `FreshStore` and `UnlockedIffPreviousCompleted` prove what it gives |
| Preferences.IsLevelCompleted | app/src/main/java/com/solidityquiz/app/data/DataManager.kt:993-995 | `isLevelCompleted`: the stored flag, false when absent; `ProgressInRange` proves it set exactly when all lessons are done |
| Preferences.GetLevelProgress | app/src/main/java/com/solidityquiz/app/data/DataManager.kt:997-999 | `getLevelProgress`: the stored value, 0 when absent; `ProgressInRange` keeps it in 0..100 |
| Preferences.Decorate | app/src/main/java/com/solidityquiz/app/data/DataManager.kt:23-27 | the `copy` of `getAllLevels`: the catalog level with the three stored progress fields applied |
| Preferences.GetAllLevels | app/src/main/java/com/solidityquiz/app/data/DataManager.kt:16-30 | `getAllLevels`: every catalog level, decorated; `GetAllLevelsDecorates` and `GetAllLevelsOfCatalog` prove its shape |
| Preferences.GetLevelById | app/src/main/java/com/solidityquiz/app/data/DataManager.kt:32-34 | `getLevelById`: the first decorated level with the id; `GetLevelByIdFinds` proves when it is found |
| Preferences.GetLessonById | app/src/main/java/com/solidityquiz/app/data/DataManager.kt:36-38 | `getLessonById`: the lesson with the id in that level; `GetLessonByIdFinds` proves when it is found |
| Preferences.AfterUpdateLevelProgress | app/src/main/java/com/solidityquiz/app/data/DataManager.kt:1008-1025 | the store after `updateLevelProgress`: unchanged outside the catalog, else the floor percentage written and at 100 the two flags; `UpdateLevelProgressWrites` proves what it writes |
| Preferences.AfterMarkLessonCompleted | app/src/main/java/com/solidityquiz/app/data/DataManager.kt:1001-1006 | the store after `markLessonCompleted`: the lesson flag set, then the progress update; `MarkLessonCompletedKeepsConsistent` and the lemmas below prove what it keeps |
| Preferences.LevelOneAlwaysUnlocked | app/src/main/java/com/solidityquiz/app/data/DataManager.kt:988 | level 1 is unlocked whatever the store holds |
| Preferences.FreshStore | app/src/main/java/com/solidityquiz/app/data/DataManager.kt:986-999 | on an empty store only level 1 is unlocked, no level is completed and every progress is 0 |
| Preferences.UnlockedIffPreviousCompleted | app/src/main/java/com/solidityquiz/app/data/DataManager.kt:987-991 | on a consistent store a level is unlocked exactly when it is level 1 or the level before it is completed |
| Preferences.MarkOutsideCatalogSetsOnlyFlag | app/src/main/java/com/solidityquiz/app/data/DataManager.kt:1001-1009 | marking a lesson of a level outside 1..5 writes only the lesson flag |
| Preferences.UpdateLevelProgressWrites | app/src/main/java/com/solidityquiz/app/data/DataManager.kt:1008-1025 | for a catalog level the stored progress becomes the floor percentage of its flagged lessons, in 0..100 and 100 exactly when all are flagged; at 100 the level is completed and the next one unlocked, below 100 no flag is written |
| Preferences.ForeignLessonFlagsIgnored | app/src/main/java/com/solidityquiz/app/data/DataManager.kt:1010-1012 | only the flags of the level's own lessons enter its progress |
| Preferences.EmptyStoreConsistent | app/src/main/java/com/solidityquiz/app/data/DataManager.kt:986-999 | the empty store is consistent (no false flag, progress equal to the lesson percentage, completed iff 100, keys only for catalog levels, unlock flags only after completion) |
| Preferences.MarkLessonCompletedKeepsConsistent | app/src/main/java/com/solidityquiz/app/data/DataManager.kt:1001-1025 | `markLessonCompleted` keeps a consistent store consistent, for any level and lesson id |
| Preferences.CompletedLessonsAll | app/src/main/java/com/solidityquiz/app/data/DataManager.kt:1010-1013 | all lessons of a catalog level are counted exactly when each of its lessons 1..n is flagged |
| Preferences.ProgressInRange | app/src/main/java/com/solidityquiz/app/models/Level.kt:11 | on a consistent store every progress lies in 0..100; a catalog level is at 100, and completed, exactly when all its lessons are done; other levels are at 0 and not completed |
| Preferences.MarkLessonCompletedOnlyAdds | app/src/main/java/com/solidityquiz/app/data/DataManager.kt:1001-1025 | `markLessonCompleted` sets the lesson flag, never removes an entry, never clears a flag and never stores false |
| Preferences.MarkLessonCompletedProgressGrows | app/src/main/java/com/solidityquiz/app/data/DataManager.kt:1008-1017 | on a consistent store `markLessonCompleted` never lowers a stored progress |
| Preferences.WithProgressIdempotent | app/src/main/java/com/solidityquiz/app/data/DataManager.kt:1015-1023 | repeating the progress writes with the same value changes nothing |
| Preferences.MarkLessonCompletedIdempotent | app/src/main/java/com/solidityquiz/app/data/DataManager.kt:1001-1025 | calling `markLessonCompleted` twice with the same ids leaves the store as one call does |
| Preferences.MarkLastLessonCompletesLevel | app/src/main/java/com/solidityquiz/app/data/DataManager.kt:1019-1023 | marking the last missing lesson of a catalog level sets it to 100, completes it and unlocks the next level |
| Preferences.FirstLessonOfLevelOne | app/src/test/java/com/solidityquiz/app/DataManagerTest.kt:115-127 | from an empty store, marking lesson 1 of level 1 sets that flag, gives level 1 progress 50 and leaves level 2 locked |
| Preferences.CompletingLevelOneUnlocksLevelTwo | app/src/main/java/com/solidityquiz/app/data/DataManager.kt:1019-1023 | from an empty store, marking lessons 1 and 2 of level 1 gives it 100, completes it and unlocks level 2 |
| Preferences.DataManager.constructor | app/src/main/java/com/solidityquiz/app/data/DataManager.kt:10-13 | a DataManager over the catalog and the persisted store |
| Preferences.DataManager.MarkLessonCompleted | app/src/main/java/com/solidityquiz/app/data/DataManager.kt:1001-1006 | the new store is the old one with the lesson flag set and the level's progress recomputed |
| Preferences.DataManager.UpdateLevelProgress | app/src/main/java/com/solidityquiz/app/data/DataManager.kt:1008-1025 | the new store is the one `AfterUpdateLevelProgress` describes; its properties are the lemmas above |
| Quiz.SetUpInputsFit | app/src/main/java/com/solidityquiz/app/QuizActivity.kt:114-155 | a question starts with the inputs of its kind: one unselected button per option, one empty field per blank, or one empty code field |
| Quiz.SetUpInputs | app/src/main/java/com/solidityquiz/app/QuizActivity.kt:114-155 | the inputs each kind of question starts with; `SetUpInputsFit` proves they fit the question |
| Quiz.TagAsWritten | app/src/main/java/com/solidityquiz/app/QuizActivity.kt:119-128 | as written, a click tags the clicked button selected and leaves every other tag as it was |
| Quiz.Select | app/src/main/java/com/solidityquiz/app/QuizActivity.kt:119-128 | as intended, after a click exactly the clicked button is selected and every text stays |
| Quiz.ClicksAsWrittenSelected | app/src/main/java/com/solidityquiz/app/QuizActivity.kt:119-128 | as written, after any clicks a button is selected exactly when it has ever been clicked |
| Quiz.AsWrittenAnswerIsLowestClicked | app/src/main/java/com/solidityquiz/app/QuizActivity.kt:176-184 | as written, the multiple-choice answer is the option with the lowest position ever clicked, or "" with no click |
| Quiz.AnswerIsLastClicked | app/src/main/java/com/solidityquiz/app/QuizActivity.kt:176-184 | with the intended handler the answer is the option clicked last |
| Quiz.ClicksKeepTexts | app/src/main/java/com/solidityquiz/app/QuizActivity.kt:115-118 | clicks never change the buttons' texts |
| Quiz.ChangedMindCountsFirstChoice | app/src/main/java/com/solidityquiz/app/QuizActivity.kt:119-128 | on any multiple-choice question with the options int256, uint256, string, bool and the answer uint256, clicking uint256 then string submits uint256 and scores it correct as written, while the intended handler submits string and scores it wrong |
| Quiz.ChosenOption | app/src/main/java/com/solidityquiz/app/QuizActivity.kt:176-184 | the loop over the buttons returns the text of the first selected button, or "" |
| Quiz.JoinedBlanks | app/src/main/java/com/solidityquiz/app/QuizActivity.kt:185-193 | the loop over the blank fields returns the trimmed texts joined by "," |
| Quiz.AnswerOf | app/src/main/java/com/solidityquiz/app/QuizActivity.kt:174-200 | `getUserAnswer` on the inputs: the first selected option or "", the trimmed blanks joined by ",", or the trimmed code; `QuizActivity.GetUserAnswer` computes it by the loops |
| Quiz.Correct | app/src/main/java/com/solidityquiz/app/QuizActivity.kt:162-164 | the count of correct answers is at most the number of answers |
| Quiz.CorrectAppend | app/src/main/java/com/solidityquiz/app/QuizActivity.kt:160-164 | recording one more answer adds one to the score exactly when it is correct |
| Quiz.CheckAnswer | app/src/main/java/com/solidityquiz/app/QuizActivity.kt:202-204 | `checkAnswer`: the answer equals the correct one ignoring case; `CheckAnswerIgnoresCase` proves its laws |
| Quiz.ResultFor | app/src/main/java/com/solidityquiz/app/QuizActivity.kt:214-224 | the result of `showResults`: the truncated percentage, passed at 70 or more, the result code; `ResultForMeans` proves what it means |
| Quiz.CheckAnswerIgnoresCase | app/src/main/java/com/solidityquiz/app/QuizActivity.kt:202-204 | the correct answer matches itself and its upper- and lower-case forms; the check is symmetric and is equality of lower-case forms |
| Quiz.ResultForMeans | app/src/main/java/com/solidityquiz/app/QuizActivity.kt:214-224 | the percentage lies in 0..100 and is 100 exactly on a full score; passed exactly when it is at least 70, which is when at least 70% of the answers are correct; RESULT_OK exactly when passed, RESULT_CANCELED otherwise |
| Quiz.ExpectedBlanksPass | app/src/main/java/com/solidityquiz/app/QuizActivity.kt:185-193 | entering each blank's expected text answers a well-formed fill-in question correctly |
| Quiz.CatalogBlanksPass | app/src/main/java/com/solidityquiz/app/QuizActivity.kt:185-193 | every fill-in question of the catalog is answered correctly by entering each blank's expected text |
| Quiz.CorrectOptionPasses | app/src/main/java/com/solidityquiz/app/QuizActivity.kt:176-184 | clicking the correct option answers a well-formed multiple-choice question correctly |
| Quiz.QuizActivity.constructor | app/src/main/java/com/solidityquiz/app/QuizActivity.kt:58-72 | the questions of the lesson named by the extras (1 and 1 when missing), none when it is not found; without questions the activity finishes with no result, otherwise question 0 is shown with Submit enabled |
| Quiz.QuizActivity.ShowQuestion | app/src/main/java/com/solidityquiz/app/QuizActivity.kt:74-112 | past the last question the session ends with its result; otherwise the question is shown with fresh inputs, Submit enabled and Next disabled |
| Quiz.QuizActivity.ClickOption | app/src/main/java/com/solidityquiz/app/QuizActivity.kt:119-128 | only the clicked option is selected afterwards; nothing else changes |
| Quiz.QuizActivity.EnterBlank | app/src/main/java/com/solidityquiz/app/QuizActivity.kt:138-142 | the text of one blank field changes; nothing else does |
| Quiz.QuizActivity.EnterCode | app/src/main/java/com/solidityquiz/app/QuizActivity.kt:150-154 | the text of the code field changes; nothing else does |
| Quiz.QuizActivity.GetUserAnswer | app/src/main/java/com/solidityquiz/app/QuizActivity.kt:174-200 | the answer is what the inputs hold: the selected option, the joined trimmed blanks or the trimmed code |
| Quiz.QuizActivity.SubmitAnswer | app/src/main/java/com/solidityquiz/app/QuizActivity.kt:157-172 | the answer is appended, the score grows by one exactly when it is correct, Submit is disabled and Next enabled |
| Quiz.QuizActivity.NextQuestion | app/src/main/java/com/solidityquiz/app/QuizActivity.kt:210-212 | the following question is shown, or after the last one the session ends with the result of all answers |
| Quiz.QuizActivity.ShowResults | app/src/main/java/com/solidityquiz/app/QuizActivity.kt:214-231 | the activity finishes with the result for its score and question count |
| Lessons.OnlyPassedQuizzesCount | app/src/main/java/com/solidityquiz/app/LessonActivity.kt:99-102 | the result a quiz session sets is acted on exactly when its percentage is at least 70 |
| Lessons.QuizWithoutResultIgnored | app/src/main/java/com/solidityquiz/app/LessonActivity.kt:99 | a quiz that finished without setting a result is not acted on |
| Lessons.ActsOnResult | app/src/main/java/com/solidityquiz/app/LessonActivity.kt:99-102 | the test of `onActivityResult`: request 1001, RESULT_OK and `QUIZ_COMPLETED` true, a missing extra reading as false; `OnlyPassedQuizzesCount` proves it holds exactly for passed quizzes |
| Lessons.LessonActivity.constructor | app/src/main/java/com/solidityquiz/app/LessonActivity.kt:60-75 | the level named by LEVEL_ID (1 when missing), the cursor on its first lesson, which the Start Quiz button names |
| Lessons.LessonActivity.UpdateCurrentLesson | app/src/main/java/com/solidityquiz/app/LessonActivity.kt:77-85 | the Start Quiz button names the lesson under the cursor; nothing happens without a level or with the cursor past the lessons |
| Lessons.LessonActivity.ClickLesson | app/src/main/java/com/solidityquiz/app/LessonActivity.kt:49-52 | the cursor moves to the position of the clicked lesson |
| Lessons.LessonActivity.StartQuiz | app/src/main/java/com/solidityquiz/app/LessonActivity.kt:87-94 | the request carries the level's id, the current lesson's id and request code 1001; none without a level |
| Lessons.LessonActivity.OnActivityResult | app/src/main/java/com/solidityquiz/app/LessonActivity.kt:96-118 | only a passed quiz for request 1001 marks the current lesson completed; then the cursor moves to the next lesson, or the activity finishes after the last; any other result changes nothing |
| Lessons.StartedQuizIsCurrentLesson | app/src/main/java/com/solidityquiz/app/LessonActivity.kt:91-92 | the ids the request carries find the lesson under the cursor |
| Lessons.LevelOneOnFreshStore | app/src/main/java/com/solidityquiz/app/LessonActivity.kt:60-62 | on a fresh store level 1 loads with its two lessons, ids 1 and 2 |
| Lessons.ClearLevelOne | app/src/main/java/com/solidityquiz/app/LessonActivity.kt:96-118 | a new user who passes both quizzes of level 1 ends with level 1 at 100%, level 2 unlocked and the lesson screen finished |
| ProgressAdapter.StatusOf | app/src/main/java/com/solidityquiz/app/adapters/ProgressAdapter.kt:55-80 | Completed exactly when the level is completed; In Progress when unlocked with progress; Available when unlocked without; Locked otherwise |
| ProgressAdapter.ShownLessonsAsWritten | app/src/main/java/com/solidityquiz/app/adapters/ProgressAdapter.kt:50-52 | as written, the shown count lies in 0..total for a progress in 0..100 |
| ProgressAdapter.ShownLessons | app/src/main/java/com/solidityquiz/app/adapters/ProgressAdapter.kt:50-52 | the rounded-up count lies in 0..total for a progress in 0..100 |
| ProgressAdapter.AsWrittenAtMostCompleted | app/src/main/java/com/solidityquiz/app/adapters/ProgressAdapter.kt:50-52 | as written, with the stored percentage of c lessons the count is at most c, and exact for c = 0, c = total and 2-lesson levels |
| ProgressAdapter.UndercountInThreeLessonLevels | app/src/main/java/com/solidityquiz/app/adapters/ProgressAdapter.kt:51 | as written, a 3-lesson level with 1 or 2 lessons done shows 0 or 1 |
| ProgressAdapter.ShownLessonsExact | app/src/main/java/com/solidityquiz/app/adapters/ProgressAdapter.kt:51 | the rounded-up count gives back exactly the number of lessons done, for levels of up to 100 lessons |
| ProgressAdapter.CardShowsStore | app/src/main/java/com/solidityquiz/app/adapters/ProgressAdapter.kt:43-80 | with the corrected count, on a consistent store a level's card counts exactly its flagged lessons and shows Completed exactly when all are done |
| ProgressAdapter.AsWrittenCardShowsStore | app/src/main/java/com/solidityquiz/app/adapters/ProgressAdapter.kt:43-80 | the card as written, on a consistent store: it counts at most the flagged lessons, exactly with none, all or two lessons, shows the corrected card's progress and status, and shows Completed exactly when its count reaches the total |
| ProgressAdapter.Bind | app/src/main/java/com/solidityquiz/app/adapters/ProgressAdapter.kt:43-80 | `bind` with the corrected, rounded-up lesson count; `CardShowsStore` proves what it shows |
| ProgressAdapter.BindAsWritten | app/src/main/java/com/solidityquiz/app/adapters/ProgressAdapter.kt:43-80 | `bind` as written, with the rounded-down lesson count; `AsWrittenCardShowsStore` proves what it shows |
| LevelAdapter.StatusOf | app/src/main/java/com/solidityquiz/app/adapters/LevelAdapter.kt:56-78 | Completed exactly when completed, Available when unlocked and not completed, Locked otherwise |
| LevelAdapter.Bind | app/src/main/java/com/solidityquiz/app/adapters/LevelAdapter.kt:46-84 | only the Locked card is dimmed, and every card takes clicks |
| LevelAdapter.OnLevelClick | app/src/main/java/com/solidityquiz/app/MainActivity.kt:46-52 | a click opens the level's lesson screen exactly when the level is unlocked |
| LevelAdapter.ClickGate | app/src/main/java/com/solidityquiz/app/adapters/LevelAdapter.kt:81-83 | a Locked card never opens; a completed level whose unlock flag is false shows Completed and does not open |
| LevelAdapter.AgreesWithProgressCard | app/src/main/java/com/solidityquiz/app/adapters/LevelAdapter.kt:56-78 | the main screen and the progress screen agree on Completed and Locked |
| LevelAdapter.LockedOnStore | app/src/main/java/com/solidityquiz/app/adapters/LevelAdapter.kt:56-78 | on a consistent store a card is Locked exactly when it is not level 1 and neither it nor the level before it is completed |
| LevelAdapter.FreshStatuses | app/src/main/java/com/solidityquiz/app/adapters/LevelAdapter.kt:56-78 | on a fresh store level 1 is Available and every other level Locked |
| ProgressActivity.LoadProgress | app/src/main/java/com/solidityquiz/app/ProgressActivity.kt:53-61 | the completed count is at most the total, equals it exactly when every level is completed, and is 0 exactly when none is |
| ProgressActivity.OverallProgress | app/src/main/java/com/solidityquiz/app/ProgressActivity.kt:55-57 | the mean progress rounded toward zero, 0 without levels; `OverallProgressBounds` proves its bounds |
| ProgressActivity.SumBounds | app/src/main/java/com/solidityquiz/app/ProgressActivity.kt:56 | valid progresses sum to between 0 and 100 per level, reaching the top exactly when every level is at 100 |
| ProgressActivity.SumAtMost | app/src/main/java/com/solidityquiz/app/ProgressActivity.kt:56 | the sum is at most the level count times any bound of the progresses |
| ProgressActivity.OverallProgressBounds | app/src/main/java/com/solidityquiz/app/ProgressActivity.kt:55-57 | with valid progresses the overall progress lies in 0..100, is never above the largest level progress, and is 100 exactly when there are levels and all are at 100 |
| ProgressActivity.SummaryOfMirror | app/src/main/java/com/solidityquiz/app/ProgressActivity.kt:49-61 | for levels that mirror the store, the overall progress is 100 exactly when all lessons are done, which is when all levels are counted completed |
| ProgressActivity.SummaryOfStore | app/src/main/java/com/solidityquiz/app/ProgressActivity.kt:49-61 | on a consistent store the summary counts five levels, its overall progress lies in 0..100, and it is 100 exactly when every lesson is done and every level completed |
| ProgressActivity.FreshSummary | app/src/main/java/com/solidityquiz/app/ProgressActivity.kt:49-61 | on a fresh store the summary is 0% with 0 of 5 levels completed |
| App.OpenDataManager | app/src/main/java/com/solidityquiz/app/data/DataManager.kt:10-13 | the DataManager the app creates works over the catalog and the persisted store |
| App.FreshInstall | app/src/main/java/com/solidityquiz/app/data/DataManager.kt:986-999 | after installation the store is consistent, the main screen shows level 1 Available and the others Locked, and the progress screen shows 0% with 0 of 5 completed |
| App.ChangedMindOnTokenBalanceQuestion | app/src/main/java/com/solidityquiz/app/QuizActivity.kt:119-128 | the app's own question 2 of level 1, lesson 1: clicking uint256 then string submits uint256 and scores it correct as written, while the intended handler submits string and scores it wrong |

## Left out

- Views, layouts, colours, toasts, the toolbar and the RecyclerView plumbing (`onCreateViewHolder`, `getItemCount`) are left out: they hold no logic beyond what is modelled.
- The adapters' `updateLevels` and `LessonAdapter` are left out: they only replace a list field and highlight a row.
- `SharedPreferences` is left out as an Android service. Its contents are the `Store` value, the asynchronous `apply()` is taken to complete at once, and string keys are typed constructors (`BoolKey`, `IntKey`).
- Each activity in the app makes its own `DataManager` over the same preferences. The model shares one `DataManager` object between screens, which reads and writes the same store.
- Intents, `startActivityForResult` and `finish()` are left out as Android services. They are modelled as a `QuizRequest` value, the result code and `QUIZ_COMPLETED` passed to `OnActivityResult`, and a `finished` flag.
- Gson and `UserProgress` are left out: the code never uses them.
- Lesson code samples and question code snippets are short stand-in texts. They keep the identifiers the unit tests look for, and every other text is the app's own.
- Icons are an enumeration instead of Android resource ids.
- KotlinText.Trim: only ASCII and the U+001C..U+001F separators count as white space, not all of Unicode's.
- KotlinText.EqualsIgnoreCase: folds only ASCII letters, not Unicode case.
- Kotlin's 32-bit `Int` overflow is not modelled: every product in the core stays far below 2^31 (a percentage times at most a few lessons or questions).
- Preferences.DataManager.constructor: takes the catalog and the persisted store as parameters. `App.OpenDataManager` passes the app's catalog.
- Preferences.MarkLessonCompletedKeepsConsistent: holds for stores the app writes itself (`Consistent`). A store edited from outside the app is not covered.
- Lessons.LessonActivity.ClickLesson: requires the clicked lesson to be one of the level's lessons. The lesson list shows exactly that level's lessons.
- Lessons.LessonActivity.OnActivityResult: requires that the activity has not finished, since a finished activity receives no results.
- Quiz.QuizActivity.ClickOption: models the option click as intended. The handler as written is `Quiz.TagAsWritten` (see Findings).
- ProgressAdapter.Bind: shows the lesson count rounded up, as the line means it. The card as written is `ProgressAdapter.BindAsWritten` (see Findings); `CardShowsStore` is proved for the corrected card and `AsWrittenCardShowsStore` for the one as written.

## Findings

| source | as written | input that shows it | evidently intended | confidence | as-written member | corrected member |
|---|---|---|---|---|---|---|
| app/src/main/java/com/solidityquiz/app/QuizActivity.kt:119-128 | A click resets every button's colour and tags the clicked one `"selected"`, but no other button's tag is cleared. `getUserAnswer` then returns the first tagged button in order. | Level 1, lesson 1, question 2 (options int256, uint256, string, bool; correct answer uint256): click uint256, then string. "string" is highlighted, but "uint256" is submitted and scored correct. | Only the last clicked option is selected, and it is the answer. | high; not executed | Quiz.TagAsWritten, Quiz.AsWrittenAnswerIsLowestClicked, Quiz.ChangedMindCountsFirstChoice, App.ChangedMindOnTokenBalanceQuestion | Quiz.Select, Quiz.AnswerIsLastClicked |
| app/src/main/java/com/solidityquiz/app/adapters/ProgressAdapter.kt:51 | "Lessons: n/total" computes n as `progress * total / 100`, rounding down a percentage that was already rounded down. | A 3-lesson level with 1 lesson done has progress 33 and shows "Lessons: 0/3". With 2 done it has progress 66 and shows "Lessons: 1/3". | The number of lessons done, which the rounded-up `(progress * total + 99) / 100` gives back exactly | medium; not executed | ProgressAdapter.ShownLessonsAsWritten, ProgressAdapter.UndercountInThreeLessonLevels, ProgressAdapter.BindAsWritten | ProgressAdapter.ShownLessons, ProgressAdapter.ShownLessonsExact, ProgressAdapter.Bind |
