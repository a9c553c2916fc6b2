/** Level 1, "ERC-20 Token Contract": `createLevel1` of DataManager and the question builders
    of its lessons. The Kotlin builders take no
    parameter. Here every piece of content takes the level's id, pinned by its precondition:
    the verifier expands the texts of a function with a parameter only where a proof calls
    it, while those of a parameterless function enter every proof that mentions it. The
    lemmas prove the facts the rest of the model relies on. */
module CatalogLevel1 {
  import opened Wrappers
  import opened Models
  import opened KotlinText
  import opened CatalogRules

  function CreateLevel1(id: int): Level
    requires id == 1
  {
    Level(id, "ERC-20 Token Contract",
      "Build your " + "first smart " + "contract - " + "a simple "
      + "ERC-20 " + "token with " + "JavaScript " + "testing",
      IcToken,
      [Lesson(1, id, "ERC-20 Token Basics",
         "Learn the " + "fundamentals " + "of ERC-20 " + "token "
         + "contracts",
         "contract " + "Token { " + "string " + "public " + "name; "
         + "string " + "public " + "symbol; " + "uint256 " + "public "
         + "totalSupply; " + "... }",
         explanation :=
         "This is the " + "basic " + "structure " + "of an " + "ERC-20 "
         + "token. The " + "contract " + "defines the " + "token's "
         + "name, " + "symbol, " + "total " + "supply, and "
         + "a mapping " + "to track " + "balances.",
         quizQuestions := CreateLevel1Questions(id)),
       Lesson(2, id, "Token Transfer Function",
         "Implement " + "the " + "transfer " + "functionality",
         "function " + "transfer(address " + "_to, " + "uint256 "
         + "_value) " + "public " + "returns " + "(bool) { " + "... }",
         explanation :=
         "The " + "transfer " + "function " + "allows " + "users to "
         + "send tokens " + "to other " + "addresses. " + "It checks "
         + "the sender " + "has enough " + "balance and " + "updates "
         + "both " + "accounts.",
         quizQuestions := CreateLevel1TransferQuestions(id))],
      isUnlocked := true)
  }

  /** Level 1 has the shape of a catalog level, and each of its quizzes is well-formed. */
  lemma CreateLevel1IsCatalogLevel(id: int)
    requires id == 1
    ensures CatalogLevel(CreateLevel1(id), id)
  {
    CreateLevel1QuestionsWellFormed(id);
    CreateLevel1TransferQuestionsWellFormed(id);
  }

  /** The titles of level 1 and its lessons,
      and the kinds of the first lesson's two questions, as the app's own tests check them. */
  lemma CreateLevel1Content(id: int)
    requires id == 1
    ensures var l := CreateLevel1(id);
      && l.title == "ERC-20 Token Contract"
      && l.lessons[0].title == "ERC-20 Token Basics"
      && l.lessons[1].title == "Token Transfer Function"
      && l.lessons[0].quizQuestions[0].kind == FillInTheBlank
      && l.lessons[0].quizQuestions[1].kind == MultipleChoice
  {
  }

  function CreateLevel1Questions(levelId: int): seq<QuizQuestion>
    requires levelId == 1
  {
    [Question1(levelId), Question2(levelId)]
  }

  lemma CreateLevel1QuestionsWellFormed(levelId: int)
    requires levelId == 1
    ensures QuizWellFormed(CreateLevel1Questions(levelId), 1)
  {
    Question1WellFormed(levelId);
    Question2WellFormed(levelId);
  }

  function Question1(levelId: int): QuizQuestion
    requires levelId == 1
  {
    QuizQuestion(1, 1, FillInTheBlank,
      "Complete " + "the ERC-20 " + "token " + "contract "
      + "structure:",
      codeSnippet := Some(
      "contract " + "Token { " + "string " + "public ___; " + "string "
      + "public ___; " + "uint256 " + "public ___; " + "mapping(address "
      + "=> uint256) " + "public ___; " + "}"),
      correctAnswer :=
      "name" + "," + "symbol" + "," + "totalSupply" + "," + "balanceOf",
      explanation :=
      "These are " + "the " + "essential " + "state " + "variables "
      + "for an " + "ERC-20 " + "token " + "contract.",
      blanks := Some([
        BlankField(1, "token name", "name", 1),
        BlankField(2, "token symbol", "symbol", 2),
        BlankField(3, "total supply", "totalSupply", 3),
        BlankField(4, "balance mapping", "balanceOf", 4)]))
  }

  lemma Question1WellFormed(levelId: int)
    requires levelId == 1
    ensures QuestionWellFormed(Question1(levelId), 1)
  {
    JoinSpelled4(BlankAnswers(Question1(levelId).blanks.value), ",");
  }

  function Question2(levelId: int): QuizQuestion
    requires levelId == 1
  {
    QuizQuestion(2, 1, MultipleChoice,
      "What data " + "type is " + "used for " + "token "
      + "balances in " + "Solidity?",
      options := Some([
        "int256",
        "uint256",
        "string",
        "bool"]),
      correctAnswer := "uint256",
      explanation :=
      "uint256 is " + "used " + "because " + "token " + "balances "
      + "should " + "never be " + "negative " + "and can be "
      + "very large " + "numbers.")
  }

  lemma Question2WellFormed(levelId: int)
    requires levelId == 1
    ensures QuestionWellFormed(Question2(levelId), 1)
  {
  }

  function CreateLevel1TransferQuestions(levelId: int): seq<QuizQuestion>
    requires levelId == 1
  {
    [Question3(levelId)]
  }

  lemma CreateLevel1TransferQuestionsWellFormed(levelId: int)
    requires levelId == 1
    ensures QuizWellFormed(CreateLevel1TransferQuestions(levelId), 2)
  {
    Question3WellFormed(levelId);
  }

  function Question3(levelId: int): QuizQuestion
    requires levelId == 1
  {
    QuizQuestion(3, 2, FillInTheBlank,
      "Complete " + "the " + "transfer " + "function:",
      codeSnippet := Some(
      "function " + "transfer(address " + "_to, " + "uint256 "
      + "_value) " + "public " + "returns " + "(bool) { "
      + "require(balanceOf[___] " + ">= ___); " + "... }"),
      correctAnswer :=
      "msg.sender" + "," + "_value" + "," + "_value" + "," + "_to" + ","
      + "_value",
      explanation :=
      "The " + "transfer " + "function " + "checks " + "sender "
      + "balance, " + "deducts " + "from " + "sender, and " + "adds to "
      + "recipient.",
      blanks := Some([
        BlankField(1, "sender address", "msg.sender", 1),
        BlankField(2, "transfer amount", "_value", 2),
        BlankField(3, "deduct amount", "_value", 3),
        BlankField(4, "recipient address", "_to", 4),
        BlankField(5, "add amount", "_value", 5)]))
  }

  lemma Question3WellFormed(levelId: int)
    requires levelId == 1
    ensures QuestionWellFormed(Question3(levelId), 2)
  {
    JoinSpelled5(BlankAnswers(Question3(levelId).blanks.value), ",");
  }
}
