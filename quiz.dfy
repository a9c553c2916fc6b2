/** QuizActivity: one quiz session over the questions of a lesson. The screen shows one
    question at a time with the inputs its kind calls for; Submit reads the answer from the
    inputs, records it and scores it; Next shows the following question; after the last one
    the session ends with a result for the lesson screen. Views, colours and toasts are left
    out; the inputs the user fills in are the `AnswerInputs` value of the session. */
module Quiz {
  import opened Wrappers
  import opened Models
  import opened KotlinInt
  import opened KotlinText
  import opened KotlinCollections
  import opened CatalogRules
  import Preferences

  /** Android's `Activity.RESULT_OK`. */
  const RESULT_OK := -1

  /** Android's `Activity.RESULT_CANCELED`. */
  const RESULT_CANCELED := 0

  /** The lowest percentage that passes a quiz. */
  const PassMark := 70

  /** An option button of a multiple-choice question: its text, and whether its tag is
      "selected". */
  datatype OptionButton = OptionButton(text: string, selected: bool)

  /** The children of `answersContainer`: a button per option, a text field per blank, or one
      text field for the code. */
  datatype AnswerInputs =
    | OptionButtons(buttons: seq<OptionButton>)
    | BlankInputs(texts: seq<string>)
    | CodeInput(text: string)

  /** The result the quiz sets for the lesson screen: the result code and the extras
      `QUIZ_COMPLETED`, `SCORE`, `TOTAL` and `PERCENTAGE`. */
  datatype QuizResult = QuizResult(resultCode: int, quizCompleted: bool, score: int, total: int, percentage: int)

  // ---------------------------------------------------------------------------------------
  // The inputs of a question

  /** `setupMultipleChoice`, `setupFillInTheBlank`, `setupCodeCompletion`: the inputs a
      question starts with. */
  function SetUpInputs(q: QuizQuestion): AnswerInputs
  {
    match q.kind
    case MultipleChoice =>
      var options := q.options.GetOr([]);
      OptionButtons(seq(|options|, i requires 0 <= i < |options| => OptionButton(options[i], false)))
    case FillInTheBlank =>
      BlankInputs(seq(|q.blanks.GetOr([])|, i => ""))
    case CodeCompletion =>
      CodeInput("")
  }

  /** The inputs belong to the question: the kind its setup gives, one button per option
      carrying the option's text, one text field per blank. */
  predicate InputsFit(inputs: AnswerInputs, q: QuizQuestion)
  {
    match q.kind
    case MultipleChoice =>
      && inputs.OptionButtons? && |inputs.buttons| == |q.options.GetOr([])|
      && forall i :: 0 <= i < |inputs.buttons| ==> inputs.buttons[i].text == q.options.GetOr([])[i]
    case FillInTheBlank => inputs.BlankInputs? && |inputs.texts| == |q.blanks.GetOr([])|
    case CodeCompletion => inputs.CodeInput?
  }

  /** The inputs a question starts with fit it, with no option selected and every text empty. */
  lemma SetUpInputsFit(q: QuizQuestion)
    ensures InputsFit(SetUpInputs(q), q)
    ensures SetUpInputs(q).OptionButtons? ==> forall i :: 0 <= i < |SetUpInputs(q).buttons| ==> !SetUpInputs(q).buttons[i].selected
    ensures SetUpInputs(q).BlankInputs? ==> forall i :: 0 <= i < |SetUpInputs(q).texts| ==> SetUpInputs(q).texts[i] == ""
    ensures SetUpInputs(q).CodeInput? ==> SetUpInputs(q).text == ""
  {
  }

  /** The click handler of an option button as the app has it: the colours of all buttons are
      reset and the clicked one is tagged "selected", but no other button's tag is cleared. */
  function TagAsWritten(buttons: seq<OptionButton>, i: int): (r: seq<OptionButton>)
    requires 0 <= i < |buttons|
    ensures |r| == |buttons| && r[i].selected
    ensures forall j :: 0 <= j < |buttons| ==> r[j].text == buttons[j].text
    ensures forall j :: 0 <= j < |buttons| && j != i ==> r[j].selected == buttons[j].selected
  {
    buttons[i := buttons[i].(selected := true)]
  }

  /** The click handler as its comment says it should be: the clicked button is the one
      selected, and every other button is not. */
  function Select(buttons: seq<OptionButton>, i: int): (r: seq<OptionButton>)
    requires 0 <= i < |buttons|
    ensures |r| == |buttons|
    ensures forall j :: 0 <= j < |buttons| ==> r[j].text == buttons[j].text && (r[j].selected <==> j == i)
  {
    seq(|buttons|, j requires 0 <= j < |buttons| => buttons[j].(selected := j == i))
  }

  /** All clicks in order, with the handler as written. */
  function ClicksAsWritten(buttons: seq<OptionButton>, clicks: seq<int>): (r: seq<OptionButton>)
    requires forall k :: 0 <= k < |clicks| ==> 0 <= clicks[k] < |buttons|
    ensures |r| == |buttons|
  {
    if |clicks| == 0 then buttons
    else TagAsWritten(ClicksAsWritten(buttons, clicks[..|clicks| - 1]), clicks[|clicks| - 1])
  }

  /** All clicks in order, with the intended handler. */
  function Clicks(buttons: seq<OptionButton>, clicks: seq<int>): (r: seq<OptionButton>)
    requires forall k :: 0 <= k < |clicks| ==> 0 <= clicks[k] < |buttons|
    ensures |r| == |buttons|
  {
    if |clicks| == 0 then buttons
    else Select(Clicks(buttons, clicks[..|clicks| - 1]), clicks[|clicks| - 1])
  }

  // ---------------------------------------------------------------------------------------
  // The answer read from the inputs

  /** The test of the loop in `getUserAnswer`: the button's tag is "selected". */
  function IsSelected(): OptionButton -> bool
  {
    (b: OptionButton) => b.selected
  }

  /** A multiple-choice answer: the text of the first button tagged "selected", or "". */
  function SelectedAnswer(buttons: seq<OptionButton>): string
  {
    match Find(buttons, IsSelected())
    case Some(b) => b.text
    case None => ""
  }

  /** Each text trimmed. */
  function TrimEach(texts: seq<string>): (r: seq<string>)
    ensures |r| == |texts| && forall i :: 0 <= i < |texts| ==> r[i] == Trim(texts[i])
  {
    seq(|texts|, i requires 0 <= i < |texts| => Trim(texts[i]))
  }

  /** A fill-in answer: the trimmed text of each blank, in order, joined by ",". */
  function BlanksAnswer(texts: seq<string>): string
  {
    Join(TrimEach(texts), ",")
  }

  /** `getUserAnswer`: what the inputs hold as an answer. */
  function AnswerOf(inputs: AnswerInputs): string
  {
    match inputs
    case OptionButtons(buttons) => SelectedAnswer(buttons)
    case BlankInputs(texts) => BlanksAnswer(texts)
    case CodeInput(text) => Trim(text)
  }

  /** The loop of `getUserAnswer` over the option buttons. */
  method ChosenOption(buttons: seq<OptionButton>) returns (answer: string)
    ensures answer == SelectedAnswer(buttons)
  {
    var i := 0;
    while i < |buttons|
      invariant 0 <= i <= |buttons|
      invariant forall j :: 0 <= j < i ==> !buttons[j].selected
    {
      if buttons[i].selected {
        FindAt(buttons, IsSelected(), i);
        return buttons[i].text;
      }
      i := i + 1;
    }
    return "";
  }

  /** The loop of `getUserAnswer` over the blank fields. */
  method JoinedBlanks(texts: seq<string>) returns (answer: string)
    ensures answer == BlanksAnswer(texts)
  {
    var answers: seq<string> := [];
    var i := 0;
    while i < |texts|
      invariant 0 <= i <= |texts|
      invariant answers == TrimEach(texts[..i])
    {
      answers := answers + [Trim(texts[i])];
      i := i + 1;
    }
    assert texts[..i] == texts;
    answer := Join(answers, ",");
  }

  /** `checkAnswer`: the answer equals the correct answer, ignoring case. */
  predicate CheckAnswer(q: QuizQuestion, answer: string)
  {
    EqualsIgnoreCase(answer, q.correctAnswer)
  }

  /** How many of the first `|answers|` questions were answered correctly. */
  function Correct(questions: seq<QuizQuestion>, answers: seq<string>): (n: nat)
    requires |answers| <= |questions|
    ensures n <= |answers|
    decreases |answers|
  {
    if |answers| == 0 then 0
    else
      Correct(questions, answers[..|answers| - 1])
      + (if CheckAnswer(questions[|answers| - 1], answers[|answers| - 1]) then 1 else 0)
  }

  /** `showResults`: the integer percentage of correct answers, the pass rule and the result
      code. */
  function ResultFor(score: int, total: int): QuizResult
    requires total > 0
  {
    var percentage := Div(score * 100, total);
    var passed := percentage >= PassMark;
    QuizResult(if passed then RESULT_OK else RESULT_CANCELED, passed, score, total, percentage)
  }

  // ---------------------------------------------------------------------------------------
  // What the quiz promises

  /** `checkAnswer` is reflexive and symmetric, and ignores the case of letters. */
  lemma CheckAnswerIgnoresCase(q: QuizQuestion, answer: string)
    ensures CheckAnswer(q, q.correctAnswer)
    ensures CheckAnswer(q, answer) <==> EqualsIgnoreCase(q.correctAnswer, answer)
    ensures CheckAnswer(q, Uppercase(q.correctAnswer)) && CheckAnswer(q, Lowercase(q.correctAnswer))
    ensures CheckAnswer(q, answer) <==> Lowercase(answer) == Lowercase(q.correctAnswer)
  {
    EqualsIgnoreCaseIsEquivalence(answer, q.correctAnswer, answer);
    EqualsIgnoreCaseIsEquivalence(q.correctAnswer, answer, q.correctAnswer);
    EqualsIgnoreCaseOfCaseVariants(q.correctAnswer);
    EqualsIgnoreCaseIsEquivalence(q.correctAnswer, Uppercase(q.correctAnswer), q.correctAnswer);
    EqualsIgnoreCaseIsEquivalence(Lowercase(q.correctAnswer), q.correctAnswer, q.correctAnswer);
    EqualsIgnoreCaseIsLowercaseEquality(answer, q.correctAnswer);
  }

  /** The result of a quiz with `score` correct answers out of `total`: the percentage lies in
      0..100, the quiz is passed exactly when the percentage is at least 70, which is exactly
      when at least 70 % of the answers are correct, and the result code is RESULT_OK exactly
      when the quiz is passed. */
  lemma ResultForMeans(score: int, total: int)
    requires 0 <= score <= total && total > 0
    ensures var r := ResultFor(score, total);
      && 0 <= r.percentage <= 100
      && (r.quizCompleted <==> r.percentage >= PassMark)
      && (r.quizCompleted <==> score * 100 >= PassMark * total)
      && (r.resultCode == RESULT_OK <==> r.quizCompleted)
      && (r.resultCode == RESULT_CANCELED <==> !r.quizCompleted)
      && (r.percentage == 100 <==> score == total)
      && r.score == score && r.total == total
  {
    PercentBounds(score, total);
    DivAtLeast(score * 100, total, PassMark);
  }

  /** Entering each blank's expected text answers a well-formed fill-in question correctly:
      trimming leaves the texts as they are, and their join is the packed correct answer. */
  lemma {:induction false} ExpectedBlanksPass(q: QuizQuestion, lessonId: int)
    requires QuestionWellFormed(q, lessonId) && q.kind == FillInTheBlank
    ensures InputsFit(BlankInputs(BlankAnswers(q.blanks.value)), q)
    ensures CheckAnswer(q, AnswerOf(BlankInputs(BlankAnswers(q.blanks.value))))
  {
    var expected := BlankAnswers(q.blanks.value);
    assert TrimEach(expected) == expected;
    EqualsIgnoreCaseIsEquivalence(q.correctAnswer, q.correctAnswer, q.correctAnswer);
  }

  /** Every fill-in question of the catalog is answered correctly by entering each blank's
      expected text. */
  lemma {:induction false} CatalogBlanksPass(catalog: seq<Level>, level: int, lesson: int, question: int)
    requires CatalogShaped(catalog)
    requires 0 <= level < |catalog| && 0 <= lesson < |catalog[level].lessons|
    requires 0 <= question < |catalog[level].lessons[lesson].quizQuestions|
    requires catalog[level].lessons[lesson].quizQuestions[question].kind == FillInTheBlank
    ensures var q := catalog[level].lessons[lesson].quizQuestions[question];
      CheckAnswer(q, AnswerOf(BlankInputs(BlankAnswers(q.blanks.value))))
  {
    assert CatalogLevel(catalog[level], level + 1);
    assert CatalogLesson(catalog[level].lessons[lesson], level + 1, lesson + 1);
    ExpectedBlanksPass(catalog[level].lessons[lesson].quizQuestions[question], lesson + 1);
  }

  /** Clicking the correct option answers a well-formed multiple-choice question correctly. */
  lemma {:induction false} CorrectOptionPasses(q: QuizQuestion, lessonId: int)
    requires QuestionWellFormed(q, lessonId) && q.kind == MultipleChoice
    ensures var i := IndexOf(q.options.value, q.correctAnswer);
      && 0 <= i < |SetUpInputs(q).buttons|
      && CheckAnswer(q, AnswerOf(OptionButtons(Select(SetUpInputs(q).buttons, i))))
  {
    var buttons := SetUpInputs(q).buttons;
    var i := IndexOf(q.options.value, q.correctAnswer);
    var r := Select(buttons, i);
    FindAt(r, IsSelected(), i);
    EqualsIgnoreCaseIsEquivalence(q.correctAnswer, q.correctAnswer, q.correctAnswer);
  }

  /** With the handler as written, a button is selected once it has been clicked, and the text
      of every button stays. */
  lemma {:induction false} ClicksAsWrittenSelected(buttons: seq<OptionButton>, clicks: seq<int>)
    requires forall k :: 0 <= k < |clicks| ==> 0 <= clicks[k] < |buttons|
    ensures |ClicksAsWritten(buttons, clicks)| == |buttons|
    ensures forall j :: 0 <= j < |buttons| ==>
      ClicksAsWritten(buttons, clicks)[j].text == buttons[j].text &&
      (ClicksAsWritten(buttons, clicks)[j].selected <==> buttons[j].selected || j in clicks)
  {
    if |clicks| > 0 {
      var earlier := clicks[..|clicks| - 1];
      ClicksAsWrittenSelected(buttons, earlier);
      assert clicks == earlier + [clicks[|clicks| - 1]];
      forall j | 0 <= j < |buttons| ensures j in clicks <==> j in earlier || j == clicks[|clicks| - 1] {
      }
    }
  }

  /** The smallest of some positions. */
  function Lowest(xs: seq<int>): (m: int)
    requires |xs| > 0
    ensures m in xs && forall k :: 0 <= k < |xs| ==> m <= xs[k]
  {
    if |xs| == 1 then xs[0]
    else
      var m := Lowest(xs[1..]);
      assert forall k :: 1 <= k < |xs| ==> xs[k] == xs[1..][k - 1];
      if xs[0] <= m then xs[0] else m
  }

  /** As written, the multiple-choice answer is the lowest-positioned option ever clicked, or ""
      when none was: a later click on a lower option is ignored. */
  lemma {:induction false} AsWrittenAnswerIsLowestClicked(q: QuizQuestion, clicks: seq<int>)
    requires SetUpInputs(q).OptionButtons?
    requires forall k :: 0 <= k < |clicks| ==> 0 <= clicks[k] < |SetUpInputs(q).buttons|
    ensures |clicks| == 0 ==> SelectedAnswer(ClicksAsWritten(SetUpInputs(q).buttons, clicks)) == ""
    ensures |clicks| > 0 ==> SelectedAnswer(ClicksAsWritten(SetUpInputs(q).buttons, clicks)) == q.options.value[Lowest(clicks)]
  {
    var buttons := SetUpInputs(q).buttons;
    SetUpInputsFit(q);
    ClicksAsWrittenSelected(buttons, clicks);
    var r := ClicksAsWritten(buttons, clicks);
    if |clicks| > 0 {
      var m := Lowest(clicks);
      forall j | 0 <= j < m ensures !r[j].selected {
        assert j !in clicks;
      }
      FindAt(r, IsSelected(), m);
    } else {
      assert forall j :: 0 <= j < |r| ==> !IsSelected()(r[j]);
    }
  }

  /** With the intended handler, the answer is the option clicked last. */
  lemma {:induction false} AnswerIsLastClicked(buttons: seq<OptionButton>, clicks: seq<int>)
    requires |clicks| > 0 && forall k :: 0 <= k < |clicks| ==> 0 <= clicks[k] < |buttons|
    ensures SelectedAnswer(Clicks(buttons, clicks)) == buttons[clicks[|clicks| - 1]].text
  {
    var i := clicks[|clicks| - 1];
    var inner := Clicks(buttons, clicks[..|clicks| - 1]);
    ClicksKeepTexts(buttons, clicks[..|clicks| - 1]);
    FindAt(Select(inner, i), IsSelected(), i);
  }

  /** The intended handler keeps the texts of the buttons. */
  lemma {:induction false} ClicksKeepTexts(buttons: seq<OptionButton>, clicks: seq<int>)
    requires forall k :: 0 <= k < |clicks| ==> 0 <= clicks[k] < |buttons|
    ensures forall j :: 0 <= j < |buttons| ==> Clicks(buttons, clicks)[j].text == buttons[j].text
  {
    if |clicks| > 0 {
      ClicksKeepTexts(buttons, clicks[..|clicks| - 1]);
    }
  }

  /** The discrepancy on any multiple-choice question with the options "int256", "uint256",
      "string", "bool" and the correct answer "uint256", as the app's first multiple-choice
      question has them (`App.ChangedMindOnTokenBalanceQuestion`): a user who clicks "uint256"
      and then changes to "string" sees "string" highlighted, but the answer submitted is
      "uint256" and is scored correct; with the intended handler the answer is "string" and is
      wrong. */
  lemma ChangedMindCountsFirstChoice(q: QuizQuestion)
    requires q.kind == MultipleChoice && q.options == Some(["int256", "uint256", "string", "bool"])
    requires q.correctAnswer == "uint256"
    ensures var buttons := SetUpInputs(q).buttons;
      && |buttons| == 4
      && SelectedAnswer(ClicksAsWritten(buttons, [1, 2])) == "uint256"
      && CheckAnswer(q, SelectedAnswer(ClicksAsWritten(buttons, [1, 2])))
      && SelectedAnswer(Clicks(buttons, [1, 2])) == "string"
      && !CheckAnswer(q, SelectedAnswer(Clicks(buttons, [1, 2])))
  {
    var buttons := SetUpInputs(q).buttons;
    AsWrittenAnswerIsLowestClicked(q, [1, 2]);
    assert Lowest([1, 2]) == 1;
    AnswerIsLastClicked(buttons, [1, 2]);
    assert [1, 2][..1] == [1];
    assert "uint256" == q.correctAnswer;
    EqualsIgnoreCaseIsEquivalence(q.correctAnswer, q.correctAnswer, q.correctAnswer);
    assert "string"[0] != "uint256"[0] && UpperChar("string"[0]) != UpperChar("uint256"[0]);
  }

  /** Recording one more answer adds one to the count of correct answers when it is correct. */
  lemma CorrectAppend(questions: seq<QuizQuestion>, answers: seq<string>, answer: string)
    requires |answers| < |questions|
    ensures Correct(questions, answers + [answer])
      == Correct(questions, answers) + (if CheckAnswer(questions[|answers|], answer) then 1 else 0)
  {
    assert (answers + [answer])[..|answers|] == answers;
  }

  // ---------------------------------------------------------------------------------------
  // The session

  /** QuizActivity: the questions, the position, the score, the answers given, the inputs of
      the question shown, the two buttons and the result once the session has ended. */
  class QuizActivity {
    var questions: seq<QuizQuestion>
    var currentQuestionIndex: int
    var score: int
    var userAnswers: seq<string>
    var inputs: AnswerInputs
    var submitEnabled: bool
    var nextEnabled: bool
    var finished: bool
    var result: Option<QuizResult>

    /** While a question is shown, the inputs are its own and one of Submit and Next is
        enabled: Submit before its answer is given, Next after. The score counts the correct
        answers, one answer per question shown. A result is only set when every question has
        been answered. */
    predicate Valid()
      reads this
    {
      && |userAnswers| <= |questions|
      && score == Correct(questions, userAnswers)
      && (!finished ==>
            && 0 <= currentQuestionIndex < |questions|
            && InputsFit(inputs, questions[currentQuestionIndex])
            && submitEnabled != nextEnabled
            && |userAnswers| == currentQuestionIndex + (if nextEnabled then 1 else 0))
      && (result.Some? ==> finished && |questions| > 0 && |userAnswers| == |questions| && result.value == ResultFor(score, |questions|))
    }

    /** `onCreate` and `loadQuiz`: the questions of the lesson named by the intent's extras
        (level 1, lesson 1 when an extra is missing), or none when the lesson is not found; with
        no question the activity finishes without a result, otherwise it shows the first. */
    constructor (catalog: seq<Level>, s: Preferences.Store, levelExtra: Option<int>, lessonExtra: Option<int>)
      ensures Valid()
      ensures var lesson := Preferences.GetLessonById(catalog, s, levelExtra.GetOr(1), lessonExtra.GetOr(1));
        questions == (if lesson.Some? then lesson.value.quizQuestions else [])
      ensures score == 0 && userAnswers == []
      ensures |questions| == 0 ==> finished && result.None?
      ensures |questions| > 0 ==>
        && !finished && currentQuestionIndex == 0 && inputs == SetUpInputs(questions[0])
        && submitEnabled && !nextEnabled && result.None?
    {
      var lesson := Preferences.GetLessonById(catalog, s, levelExtra.GetOr(1), lessonExtra.GetOr(1));
      questions := if lesson.Some? then lesson.value.quizQuestions else [];
      currentQuestionIndex := 0;
      score := 0;
      userAnswers := [];
      inputs := CodeInput("");
      submitEnabled := false;
      nextEnabled := false;
      finished := false;
      result := None;
      new;
      if |questions| > 0 {
        ShowQuestion(0);
      } else {
        finished := true;
      }
    }

    /** `showQuestion(index)`: past the last question the session ends with its result;
        otherwise question `index` is shown with fresh inputs, Submit enabled and Next not. */
    method ShowQuestion(index: int)
      requires 0 <= index == |userAnswers| <= |questions| && |questions| > 0
      requires score == Correct(questions, userAnswers) && result.None?
      modifies this
      ensures Valid()
      ensures questions == old(questions) && score == old(score) && userAnswers == old(userAnswers)
      ensures index >= |questions| ==> finished && result == Some(ResultFor(score, |questions|))
      ensures index < |questions| ==>
        && !finished && currentQuestionIndex == index && inputs == SetUpInputs(questions[index])
        && submitEnabled && !nextEnabled && result.None?
    {
      if index >= |questions| {
        ShowResults();
        return;
      }
      currentQuestionIndex := index;
      inputs := SetUpInputs(questions[index]);
      SetUpInputsFit(questions[index]);
      finished := false;
      submitEnabled := true;
      nextEnabled := false;
    }

    /** A click on option button `i`, with the handler as intended (see `TagAsWritten` for the
        handler as written). */
    method ClickOption(i: int)
      requires Valid() && !finished && inputs.OptionButtons? && 0 <= i < |inputs.buttons|
      modifies this
      ensures Valid()
      ensures inputs == OptionButtons(Select(old(inputs.buttons), i))
      ensures questions == old(questions) && currentQuestionIndex == old(currentQuestionIndex)
      ensures score == old(score) && userAnswers == old(userAnswers) && finished == old(finished)
      ensures submitEnabled == old(submitEnabled) && nextEnabled == old(nextEnabled) && result == old(result)
    {
      inputs := OptionButtons(Select(inputs.buttons, i));
    }

    /** Typing `text` into the field of blank `i`. */
    method EnterBlank(i: int, text: string)
      requires Valid() && !finished && inputs.BlankInputs? && 0 <= i < |inputs.texts|
      modifies this
      ensures Valid()
      ensures inputs == BlankInputs(old(inputs.texts)[i := text])
      ensures questions == old(questions) && currentQuestionIndex == old(currentQuestionIndex)
      ensures score == old(score) && userAnswers == old(userAnswers) && finished == old(finished)
      ensures submitEnabled == old(submitEnabled) && nextEnabled == old(nextEnabled) && result == old(result)
    {
      inputs := BlankInputs(inputs.texts[i := text]);
    }

    /** Typing `text` into the code field. */
    method EnterCode(text: string)
      requires Valid() && !finished && inputs.CodeInput?
      modifies this
      ensures Valid()
      ensures inputs == CodeInput(text)
      ensures questions == old(questions) && currentQuestionIndex == old(currentQuestionIndex)
      ensures score == old(score) && userAnswers == old(userAnswers) && finished == old(finished)
      ensures submitEnabled == old(submitEnabled) && nextEnabled == old(nextEnabled) && result == old(result)
    {
      inputs := CodeInput(text);
    }

    /** `getUserAnswer` for the question shown. */
    method GetUserAnswer() returns (answer: string)
      ensures answer == AnswerOf(inputs)
    {
      match inputs
      case OptionButtons(buttons) =>
        answer := ChosenOption(buttons);
      case BlankInputs(texts) =>
        answer := JoinedBlanks(texts);
      case CodeInput(text) =>
        answer := Trim(text);
    }

    /** `submitAnswer`, on a click of the enabled Submit button: the answer is recorded and
        scored, Submit is disabled and Next enabled. */
    method SubmitAnswer()
      requires Valid() && !finished && submitEnabled
      modifies this
      ensures Valid()
      ensures questions == old(questions) && currentQuestionIndex == old(currentQuestionIndex)
      ensures userAnswers == old(userAnswers) + [AnswerOf(old(inputs))]
      ensures score == old(score) + (if CheckAnswer(questions[currentQuestionIndex], AnswerOf(old(inputs))) then 1 else 0)
      ensures score <= |userAnswers| <= |questions|
      ensures !submitEnabled && nextEnabled
      ensures inputs == old(inputs) && finished == old(finished) && result == old(result)
    {
      var question := questions[currentQuestionIndex];
      var userAnswer := GetUserAnswer();
      CorrectAppend(questions, userAnswers, userAnswer);
      userAnswers := userAnswers + [userAnswer];
      var isCorrect := CheckAnswer(question, userAnswer);
      if isCorrect {
        score := score + 1;
      }
      submitEnabled := false;
      nextEnabled := true;
    }

    /** `nextQuestion`, on a click of the enabled Next button: the following question, or the
        result after the last one. */
    method NextQuestion()
      requires Valid() && !finished && nextEnabled
      modifies this
      ensures Valid()
      ensures questions == old(questions) && score == old(score) && userAnswers == old(userAnswers)
      ensures old(currentQuestionIndex) + 1 < |questions| ==>
        && !finished && currentQuestionIndex == old(currentQuestionIndex) + 1
        && inputs == SetUpInputs(questions[currentQuestionIndex]) && submitEnabled && !nextEnabled
      ensures old(currentQuestionIndex) + 1 == |questions| ==>
        finished && |userAnswers| == |questions| && result == Some(ResultFor(score, |questions|))
    {
      ShowQuestion(currentQuestionIndex + 1);
    }

    /** `showResults`: the activity finishes with the result of the session. */
    method ShowResults()
      requires |questions| > 0 && |userAnswers| == |questions| && score == Correct(questions, userAnswers)
      modifies this
      ensures questions == old(questions) && score == old(score) && userAnswers == old(userAnswers)
      ensures finished && result == Some(ResultFor(score, |questions|))
      ensures Valid()
    {
      result := Some(ResultFor(score, |questions|));
      finished := true;
    }
  }
}
