/** What the catalog's content is like: the shape of its levels and lessons and the
    well-formedness of its quiz questions, as DataManager's `createLevel*` functions build
    them and the app's own catalog test checks them. The rest of the model relies on these
    properties only, never on the texts themselves. */
module CatalogRules {
  import opened Wrappers
  import opened Models
  import opened KotlinText

  /** How many levels the catalog has. */
  const LevelCount := 5

  /** How many lessons level `id` has. */
  function LessonCount(id: int): nat
    requires 1 <= id <= LevelCount
  {
    if id <= 2 then 2 else 3
  }

  /** A list of levels as `getAllLevels` builds it before the stored progress is applied:
      the levels with ids 1 .. `LevelCount`, in that order, each a catalog level. */
  predicate CatalogShaped(levels: seq<Level>)
  {
    |levels| == LevelCount && forall i :: 0 <= i < |levels| ==> CatalogLevel(levels[i], i + 1)
  }

  /** A level as the catalog builds it: the given id, `LessonCount(id)` lessons numbered
      1, 2, ... in order, each a catalog lesson of this level, unlocked exactly when it is
      level 1, and the other progress fields at their defaults (not completed, 0 %). */
  predicate CatalogLevel(l: Level, id: int)
    requires 1 <= id <= LevelCount
  {
    && l.id == id && |l.lessons| == LessonCount(id)
    && (forall j :: 0 <= j < |l.lessons| ==> CatalogLesson(l.lessons[j], id, j + 1))
    && l.isUnlocked == (id == 1) && !l.isCompleted && l.progress == 0
  }

  /** A lesson as the catalog builds it: its ids, language "solidity", not completed, and a
      well-formed quiz. */
  predicate CatalogLesson(l: Lesson, levelId: int, lessonId: int)
  {
    && l.id == lessonId && l.levelId == levelId
    && l.language == "solidity" && !l.isCompleted
    && QuizWellFormed(l.quizQuestions, lessonId)
  }

  /** A quiz as the catalog builds it: at least one question, each well-formed. */
  predicate QuizWellFormed(qs: seq<QuizQuestion>, lessonId: int)
  {
    |qs| > 0 && forall i :: 0 <= i < |qs| ==> QuestionWellFormed(qs[i], lessonId)
  }

  /** What a question of the catalog carries: the fields of its kind, a positive id,
      non-empty texts, the lesson it belongs to, a correct option among the options of a
      multiple-choice question, and for a fill-in question an answer that packs the blanks. */
  predicate QuestionWellFormed(q: QuizQuestion, lessonId: int)
  {
    && VariantFieldsFit(q)
    && q.id > 0 && q.lessonId == lessonId
    && |q.question| > 0 && |q.correctAnswer| > 0 && |q.explanation| > 0
    && (q.kind == MultipleChoice ==> q.correctAnswer in q.options.value)
    && (q.kind == FillInTheBlank ==> AnswerPacksBlanks(q.correctAnswer, q.blanks.value))
  }

  /** `answer` is the blanks' answers joined by ",", and no blank's answer starts or ends
      with white space, so each survives the trimming of the quiz screen. */
  predicate AnswerPacksBlanks(answer: string, blanks: seq<BlankField>)
  {
    && answer == Join(BlankAnswers(blanks), ",")
    && forall i :: 0 <= i < |blanks| ==> Unpadded(blanks[i].correctAnswer)
  }

  /** The join of 3 parts, written out. */
  lemma {:induction false} JoinSpelled3(parts: seq<string>, sep: string)
    requires |parts| == 3
    ensures Join(parts, sep) == parts[0] + sep + parts[1] + sep + parts[2]
  {
    assert JoinFirst(parts, 2, sep) == parts[0] + sep + parts[1];
  }

  /** The join of 4 parts, written out. */
  lemma {:induction false} JoinSpelled4(parts: seq<string>, sep: string)
    requires |parts| == 4
    ensures Join(parts, sep) == parts[0] + sep + parts[1] + sep + parts[2] + sep + parts[3]
  {
    assert JoinFirst(parts, 2, sep) == parts[0] + sep + parts[1];
    assert JoinFirst(parts, 3, sep) == parts[0] + sep + parts[1] + sep + parts[2];
  }

  /** The join of 5 parts, written out. */
  lemma {:induction false} JoinSpelled5(parts: seq<string>, sep: string)
    requires |parts| == 5
    ensures Join(parts, sep) == parts[0] + sep + parts[1] + sep + parts[2] + sep + parts[3] + sep + parts[4]
  {
    assert JoinFirst(parts, 2, sep) == parts[0] + sep + parts[1];
    assert JoinFirst(parts, 3, sep) == parts[0] + sep + parts[1] + sep + parts[2];
    assert JoinFirst(parts, 4, sep) == parts[0] + sep + parts[1] + sep + parts[2] + sep + parts[3];
  }

  /** The join of 7 parts, written out. */
  lemma {:induction false} JoinSpelled7(parts: seq<string>, sep: string)
    requires |parts| == 7
    ensures Join(parts, sep) == parts[0] + sep + parts[1] + sep + parts[2] + sep + parts[3] + sep + parts[4] + sep + parts[5] + sep + parts[6]
  {
    assert JoinFirst(parts, 2, sep) == parts[0] + sep + parts[1];
    assert JoinFirst(parts, 3, sep) == parts[0] + sep + parts[1] + sep + parts[2];
    assert JoinFirst(parts, 4, sep) == parts[0] + sep + parts[1] + sep + parts[2] + sep + parts[3];
    assert JoinFirst(parts, 5, sep) == parts[0] + sep + parts[1] + sep + parts[2] + sep + parts[3] + sep + parts[4];
    assert JoinFirst(parts, 6, sep) == parts[0] + sep + parts[1] + sep + parts[2] + sep + parts[3] + sep + parts[4] + sep + parts[5];
  }

  /** The join of 9 parts, written out. */
  lemma {:induction false} JoinSpelled9(parts: seq<string>, sep: string)
    requires |parts| == 9
    ensures Join(parts, sep) == parts[0] + sep + parts[1] + sep + parts[2] + sep + parts[3] + sep + parts[4] + sep + parts[5] + sep + parts[6] + sep + parts[7] + sep + parts[8]
  {
    assert JoinFirst(parts, 2, sep) == parts[0] + sep + parts[1];
    assert JoinFirst(parts, 3, sep) == parts[0] + sep + parts[1] + sep + parts[2];
    assert JoinFirst(parts, 4, sep) == parts[0] + sep + parts[1] + sep + parts[2] + sep + parts[3];
    assert JoinFirst(parts, 5, sep) == parts[0] + sep + parts[1] + sep + parts[2] + sep + parts[3] + sep + parts[4];
    assert JoinFirst(parts, 6, sep) == parts[0] + sep + parts[1] + sep + parts[2] + sep + parts[3] + sep + parts[4] + sep + parts[5];
    assert JoinFirst(parts, 7, sep) == parts[0] + sep + parts[1] + sep + parts[2] + sep + parts[3] + sep + parts[4] + sep + parts[5] + sep + parts[6];
    assert JoinFirst(parts, 8, sep) == parts[0] + sep + parts[1] + sep + parts[2] + sep + parts[3] + sep + parts[4] + sep + parts[5] + sep + parts[6] + sep + parts[7];
  }
}
