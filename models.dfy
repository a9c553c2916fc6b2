/** The app's content and progress values: the Kotlin data classes of the `models` package,
    with the same defaults. */
module Models {
  import opened Wrappers

  /** The three kinds of quiz question. */
  datatype QuestionType = MultipleChoice | FillInTheBlank | CodeCompletion

  /** The drawable shown for a level (`R.drawable.ic_*`). */
  datatype Icon = IcToken | IcNft | IcCrowdfunding | IcDao | IcAmm

  /** One blank of a fill-in question: its hint and the text expected in it. */
  datatype BlankField = BlankField(id: int, placeholder: string, correctAnswer: string, position: int)

  /** A quiz question. `options` is set for multiple choice, `blanks` for fill-in;
      `correctAnswer` of a fill-in question packs all blanks into one string. */
  datatype QuizQuestion = QuizQuestion(
    id: int,
    lessonId: int,
    kind: QuestionType,
    question: string,
    codeSnippet: Option<string> := None,
    options: Option<seq<string>> := None,
    correctAnswer: string,
    explanation: string,
    blanks: Option<seq<BlankField>> := None)

  datatype Lesson = Lesson(
    id: int,
    levelId: int,
    title: string,
    description: string,
    codeContent: string,
    language: string := "solidity",
    explanation: string,
    quizQuestions: seq<QuizQuestion>,
    isCompleted: bool := false)

  /** A level; `isUnlocked`, `isCompleted` and `progress` are filled in from the stored flags. */
  datatype Level = Level(
    id: int,
    title: string,
    description: string,
    iconResource: Icon,
    lessons: seq<Lesson>,
    isUnlocked: bool := false,
    isCompleted: bool := false,
    progress: int := 0)

  /** The documented range of a level's progress, a percentage. */
  predicate ValidProgress(p: int)
  {
    0 <= p <= 100
  }

  /** The fields a question of each kind must carry: at least two options for multiple
      choice, at least one blank for fill-in, a code snippet for code completion. */
  predicate VariantFieldsFit(q: QuizQuestion)
  {
    match q.kind
    case MultipleChoice => q.options.Some? && |q.options.value| >= 2
    case FillInTheBlank => q.blanks.Some? && |q.blanks.value| > 0
    case CodeCompletion => q.codeSnippet.Some?
  }

  /** The expected text of each blank, in order. */
  function BlankAnswers(blanks: seq<BlankField>): (r: seq<string>)
    ensures |r| == |blanks| && forall i :: 0 <= i < |blanks| ==> r[i] == blanks[i].correctAnswer
  {
    seq(|blanks|, i requires 0 <= i < |blanks| => blanks[i].correctAnswer)
  }
}
