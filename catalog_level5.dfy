/** Level 5, "AMM Contract & React Frontend": `createLevel5` of DataManager and the question builders
    of its lessons. The Kotlin builders take no
    parameter. Here every piece of content takes the level's id, pinned by its precondition:
    the verifier expands the texts of a function with a parameter only where a proof calls
    it, while those of a parameterless function enter every proof that mentions it. The
    lemmas prove the facts the rest of the model relies on. */
module CatalogLevel5 {
  import opened Wrappers
  import opened Models
  import opened KotlinText
  import opened CatalogRules

  function CreateLevel5(id: int): Level
    requires id == 5
  {
    Level(id, "AMM Contract & React Frontend",
      "Build an " + "automated " + "market " + "maker with "
      + "React/Redux " + "frontend " + "integration",
      IcAmm,
      [Lesson(1, id, "AMM Contract Structure",
         "Understanding " + "Automated " + "Market " + "Maker "
         + "mechanics",
         "contract " + "AMM"
         + (" { ... " + "function " + "addLiquidity(uint256 "
            + "_amount1, " + "uint256 " + "_amount2) " + "external { "
            + "... } }"),
         explanation :=
         "An AMM " + "allows " + "users to " + "trade " + "tokens "
         + "through " + "liquidity " + "pools. " + "Liquidity "
         + "providers " + "deposit " + "tokens and " + "receive "
         + "shares " + "representing " + "their " + "portion of "
         + "the pool.",
         quizQuestions := CreateLevel5BasicQuestions(id)),
       Lesson(2, id, "Token Swapping Logic",
         "Implementing " + "the core " + "swap " + "functionality "
         + "using " + "constant " + "product " + "formula",
         "function " + "swap"
         + ("(address " + "_tokenIn, " + "uint256 " + "_amountIn) "
            + "external " + "returns " + "(uint256 " + "amountOut) "
            + "{ ... }"),
         explanation :=
         "The swap " + "function " + "uses the " + "constant "
         + "product " + "formula (x " + "* y = k) to " + "calculate "
         + "exchange " + "rates. A " + "0.3% fee is " + "charged on "
         + "each swap.",
         quizQuestions := CreateLevel5SwapQuestions(id)),
       Lesson(3, id, "React Frontend Integration",
         "Building a " + "React/Redux " + "frontend to " + "interact "
         + "with the AMM",
         "import " + "React"
         + (", { " + "useState, " + "useEffect } " + "from "
            + "'react'; " + "... ethers " + "..."),
         explanation :=
         "The React " + "frontend " + "connects to " + "the AMM "
         + "contract " + "using " + "ethers.js. " + "Redux " + "manages "
         + "application " + "state, and " + "users can " + "input "
         + "amounts to " + "see " + "calculated " + "outputs " + "before "
         + "swapping.",
         quizQuestions := CreateLevel5ReactQuestions(id))])
  }

  /** Level 5 has the shape of a catalog level, and each of its quizzes is well-formed. */
  lemma CreateLevel5IsCatalogLevel(id: int)
    requires id == 5
    ensures CatalogLevel(CreateLevel5(id), id)
  {
    CreateLevel5BasicQuestionsWellFormed(id);
    CreateLevel5SwapQuestionsWellFormed(id);
    CreateLevel5ReactQuestionsWellFormed(id);
  }

  /** The titles of level 5 and its lessons,
      and the identifiers its lessons' texts mention, as the app's own tests check them. */
  lemma CreateLevel5Content(id: int)
    requires id == 5
    ensures var l := CreateLevel5(id);
      && l.title == "AMM Contract & React Frontend"
      && l.lessons[0].title == "AMM Contract Structure"
      && l.lessons[1].title == "Token Swapping Logic"
      && l.lessons[2].title == "React Frontend Integration"
      && Contains(l.lessons[0].codeContent, "AMM")
      && Contains(l.lessons[1].codeContent, "swap")
      && Contains(l.lessons[2].codeContent, "React")
  {
    ContainsInfix("contract ", "AMM",
      (" { ... " + "function " + "addLiquidity(uint256 "
         + "_amount1, " + "uint256 " + "_amount2) " + "external { "
         + "... } }"));
    ContainsInfix("function ", "swap",
      ("(address " + "_tokenIn, " + "uint256 " + "_amountIn) "
         + "external " + "returns " + "(uint256 " + "amountOut) "
         + "{ ... }"));
    ContainsInfix("import ", "React",
      (", { " + "useState, " + "useEffect } " + "from " + "'react'; "
         + "... ethers " + "..."));
  }

  function CreateLevel5BasicQuestions(levelId: int): seq<QuizQuestion>
    requires levelId == 5
  {
    [Question16(levelId)]
  }

  lemma CreateLevel5BasicQuestionsWellFormed(levelId: int)
    requires levelId == 5
    ensures QuizWellFormed(CreateLevel5BasicQuestions(levelId), 1)
  {
    Question16WellFormed(levelId);
  }

  function Question16(levelId: int): QuizQuestion
    requires levelId == 5
  {
    QuizQuestion(16, 1, MultipleChoice,
      "What is the " + "main " + "purpose of " + "an " + "Automated "
      + "Market " + "Maker (AMM)?",
      options := Some([
        "To create " + "new tokens",
        "To provide " + "liquidity " + "for token " + "trading",
        "To mine " + "cryptocurrency",
        "To store " + "user data"]),
      correctAnswer := "To provide " + "liquidity " + "for token " + "trading",
      explanation :=
      "AMMs use " + "liquidity " + "pools to " + "enable "
      + "decentralized " + "token " + "trading " + "without "
      + "traditional " + "order books.")
  }

  lemma Question16WellFormed(levelId: int)
    requires levelId == 5
    ensures QuestionWellFormed(Question16(levelId), 1)
  {
  }

  function CreateLevel5SwapQuestions(levelId: int): seq<QuizQuestion>
    requires levelId == 5
  {
    [Question17(levelId)]
  }

  lemma CreateLevel5SwapQuestionsWellFormed(levelId: int)
    requires levelId == 5
    ensures QuizWellFormed(CreateLevel5SwapQuestions(levelId), 2)
  {
    Question17WellFormed(levelId);
  }

  function Question17(levelId: int): QuizQuestion
    requires levelId == 5
  {
    QuizQuestion(17, 2, FillInTheBlank,
      "Complete " + "the AMM " + "swap " + "calculation:",
      codeSnippet := Some(
      "uint256 " + "amountInWithFee " + "= " + "(_amountIn "
      + "* ___) / " + "1000; " + "amountOut = " + "(reserveOut "
      + "* ___) / " + "(reserveIn " + "+ ___);"),
      correctAnswer :=
      "997" + "," + "amountInWithFee" + "," + "amountInWithFee",
      explanation :=
      "The AMM " + "applies a " + "0.3% fee " + "(997/1000) "
      + "and uses " + "the " + "constant " + "product " + "formula for "
      + "price " + "calculation.",
      blanks := Some([
        BlankField(1, "fee multiplier", "997", 1),
        BlankField(2, "amount with fee", "amountInWithFee", 2),
        BlankField(3, "amount with fee", "amountInWithFee", 3)]))
  }

  lemma Question17WellFormed(levelId: int)
    requires levelId == 5
    ensures QuestionWellFormed(Question17(levelId), 2)
  {
    JoinSpelled3(BlankAnswers(Question17(levelId).blanks.value), ",");
  }

  function CreateLevel5ReactQuestions(levelId: int): seq<QuizQuestion>
    requires levelId == 5
  {
    [Question18(levelId)]
  }

  lemma CreateLevel5ReactQuestionsWellFormed(levelId: int)
    requires levelId == 5
    ensures QuizWellFormed(CreateLevel5ReactQuestions(levelId), 3)
  {
    Question18WellFormed(levelId);
  }

  function Question18(levelId: int): QuizQuestion
    requires levelId == 5
  {
    QuizQuestion(18, 3, MultipleChoice,
      "What " + "library is " + "used to " + "interact " + "with "
      + "Ethereum " + "contracts " + "in React?",
      options := Some([
        "web3.js",
        "ethers.js",
        "react-ethereum",
        "blockchain.js"]),
      correctAnswer := "ethers.js",
      explanation :=
      "Ethers.js " + "is a " + "popular " + "library for "
      + "interacting " + "with " + "Ethereum " + "contracts " + "from "
      + "JavaScript/React " + "applications.")
  }

  lemma Question18WellFormed(levelId: int)
    requires levelId == 5
    ensures QuestionWellFormed(Question18(levelId), 3)
  {
  }
}
