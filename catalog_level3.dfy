/** Level 3, "Crowdfunding via NFT": `createLevel3` of DataManager and the question builders
    of its lessons. The Kotlin builders take no
    parameter. Here every piece of content takes the level's id, pinned by its precondition:
    the verifier expands the texts of a function with a parameter only where a proof calls
    it, while those of a parameterless function enter every proof that mentions it. The
    lemmas prove the facts the rest of the model relies on. */
module CatalogLevel3 {
  import opened Wrappers
  import opened Models
  import opened KotlinText
  import opened CatalogRules

  function CreateLevel3(id: int): Level
    requires id == 3
  {
    Level(id, "Crowdfunding via NFT",
      "Build a " + "crowdfunding " + "platform " + "that mints "
      + "NFTs as " + "rewards",
      IcCrowdfunding,
      [Lesson(1, id, "Crowdfunding Contract Basics",
         "Understanding " + "crowdfunding " + "mechanics "
         + "with smart " + "contracts",
         "contract " + "CrowdfundingNFT"
         + (" is ERC721 " + "{ ... }"),
         explanation :=
         "This " + "crowdfunding " + "contract " + "combines "
         + "ERC-721 " + "NFTs with " + "fundraising. " + "Contributors "
         + "receive " + "unique NFTs " + "as rewards " + "for their "
         + "participation.",
         quizQuestions := CreateLevel3BasicQuestions(id)),
       Lesson(2, id, "Contribution and NFT Minting",
         "Implementing " + "contribution " + "tracking " + "and NFT "
         + "rewards",
         "function " + "contribute"
         + ("() external " + "payable { " + "... } " + "function "
            + "withdraw() " + "external { " + "... }"),
         explanation :=
         "The " + "contribute " + "function " + "accepts ETH "
         + "payments " + "and mints " + "NFTs as " + "rewards. " + "The "
         + "withdraw " + "function " + "allows the " + "owner to "
         + "claim funds " + "if the goal " + "is met.",
         quizQuestions := CreateLevel3ContributeQuestions(id)),
       Lesson(3, id, "Testing Crowdfunding Contract",
         "Comprehensive " + "testing for " + "crowdfunding "
         + "functionality",
         "describe('CrowdfundingNFT', " + "function () " + "{ ... })",
         explanation :=
         "Testing " + "verifies " + "that " + "contributions "
         + "are tracked " + "correctly, " + "NFTs are " + "minted for "
         + "contributors, " + "and the " + "contract " + "state is "
         + "updated " + "properly.",
         quizQuestions := CreateLevel3TestQuestions(id))])
  }

  /** Level 3 has the shape of a catalog level, and each of its quizzes is well-formed. */
  lemma CreateLevel3IsCatalogLevel(id: int)
    requires id == 3
    ensures CatalogLevel(CreateLevel3(id), id)
  {
    CreateLevel3BasicQuestionsWellFormed(id);
    CreateLevel3ContributeQuestionsWellFormed(id);
    CreateLevel3TestQuestionsWellFormed(id);
  }

  /** The titles of level 3 and its lessons,
      and the identifiers its lessons' texts mention, as the app's own tests check them. */
  lemma CreateLevel3Content(id: int)
    requires id == 3
    ensures var l := CreateLevel3(id);
      && l.title == "Crowdfunding via NFT"
      && l.lessons[0].title == "Crowdfunding Contract Basics"
      && l.lessons[1].title == "Contribution and NFT Minting"
      && l.lessons[2].title == "Testing Crowdfunding Contract"
      && Contains(l.lessons[0].codeContent, "CrowdfundingNFT")
      && Contains(l.lessons[1].codeContent, "contribute")
  {
    ContainsInfix("contract ", "CrowdfundingNFT",
      (" is ERC721 " + "{ ... }"));
    ContainsInfix("function ", "contribute",
      ("() external " + "payable { " + "... } " + "function "
         + "withdraw() " + "external { " + "... }"));
  }

  function CreateLevel3BasicQuestions(levelId: int): seq<QuizQuestion>
    requires levelId == 3
  {
    [Question8(levelId), Question9(levelId)]
  }

  lemma CreateLevel3BasicQuestionsWellFormed(levelId: int)
    requires levelId == 3
    ensures QuizWellFormed(CreateLevel3BasicQuestions(levelId), 1)
  {
    Question8WellFormed(levelId);
    Question9WellFormed(levelId);
  }

  function Question8(levelId: int): QuizQuestion
    requires levelId == 3
  {
    QuizQuestion(8, 1, MultipleChoice,
      "What is the " + "main " + "purpose of " + "combining "
      + "crowdfunding " + "with NFTs?",
      options := Some([
        "To make the " + "contract " + "more complex",
        "To provide " + "unique " + "rewards to " + "contributors",
        "To increase " + "gas costs",
        "To prevent " + "contributions"]),
      correctAnswer := "To provide " + "unique " + "rewards to " + "contributors",
      explanation :=
      "NFTs serve " + "as unique, " + "collectible " + "rewards for "
      + "crowdfunding " + "contributors, " + "adding " + "value "
      + "beyond just " + "supporting " + "the project.")
  }

  lemma Question8WellFormed(levelId: int)
    requires levelId == 3
    ensures QuestionWellFormed(Question8(levelId), 1)
  {
  }

  function Question9(levelId: int): QuizQuestion
    requires levelId == 3
  {
    QuizQuestion(9, 1, FillInTheBlank,
      "Complete " + "the " + "crowdfunding " + "constructor:",
      codeSnippet := Some(
      "constructor(...) " + "ERC721(___, " + "___) { " + "owner = "
      + "___; goal = " + "___; " + "deadline = " + "block.timestamp "
      + "+ " + "(_durationInDays " + "* ___); }"),
      correctAnswer :=
      "name" + "," + "symbol" + "," + "msg.sender" + "," + "_goal" + ","
      + "1 days",
      explanation :=
      "The " + "constructor " + "initializes " + "the ERC721 "
      + "with name " + "and symbol, " + "sets the " + "owner, "
      + "goal, and " + "calculates " + "deadline.",
      blanks := Some([
        BlankField(1, "token name", "name", 1),
        BlankField(2, "token symbol", "symbol", 2),
        BlankField(3, "contract owner", "msg.sender", 3),
        BlankField(4, "funding goal", "_goal", 4),
        BlankField(5, "time unit", "1 days", 5)]))
  }

  lemma Question9WellFormed(levelId: int)
    requires levelId == 3
    ensures QuestionWellFormed(Question9(levelId), 1)
  {
    JoinSpelled5(BlankAnswers(Question9(levelId).blanks.value), ",");
  }

  function CreateLevel3ContributeQuestions(levelId: int): seq<QuizQuestion>
    requires levelId == 3
  {
    [Question10(levelId)]
  }

  lemma CreateLevel3ContributeQuestionsWellFormed(levelId: int)
    requires levelId == 3
    ensures QuizWellFormed(CreateLevel3ContributeQuestions(levelId), 2)
  {
    Question10WellFormed(levelId);
  }

  function Question10(levelId: int): QuizQuestion
    requires levelId == 3
  {
    QuizQuestion(10, 2, FillInTheBlank,
      "Complete " + "the " + "contribute " + "function:",
      codeSnippet := Some(
      "function " + "contribute() " + "external " + "payable { "
      + "require(block.timestamp " + "< ___, " + "\"Campaign "
      + "ended\"); " + "... }"),
      correctAnswer :=
      "deadline" + "," + "msg.value" + "," + "msg.sender" + ","
      + "msg.value" + "," + "msg.value" + "," + "_tokenIdCounter" + ","
      + "_tokenIdCounter" + "," + "msg.sender" + "," + "tokenId",
      explanation :=
      "The " + "contribute " + "function " + "checks " + "deadline "
      + "and value, " + "updates " + "tracking, " + "and mints "
      + "an NFT " + "reward.",
      blanks := Some([
        BlankField(1, "campaign deadline", "deadline", 1),
        BlankField(2, "sent value", "msg.value", 2),
        BlankField(3, "contributor address", "msg.sender", 3),
        BlankField(4, "contribution amount", "msg.value", 4),
        BlankField(5, "total raised amount", "msg.value", 5),
        BlankField(6, "current token ID", "_tokenIdCounter", 6),
        BlankField(7, "increment counter", "_tokenIdCounter", 7),
        BlankField(8, "NFT recipient", "msg.sender", 8),
        BlankField(9, "token ID to mint", "tokenId", 9)]))
  }

  lemma Question10WellFormed(levelId: int)
    requires levelId == 3
    ensures QuestionWellFormed(Question10(levelId), 2)
  {
    JoinSpelled9(BlankAnswers(Question10(levelId).blanks.value), ",");
  }

  function CreateLevel3TestQuestions(levelId: int): seq<QuizQuestion>
    requires levelId == 3
  {
    [Question11(levelId)]
  }

  lemma CreateLevel3TestQuestionsWellFormed(levelId: int)
    requires levelId == 3
    ensures QuizWellFormed(CreateLevel3TestQuestions(levelId), 3)
  {
    Question11WellFormed(levelId);
  }

  function Question11(levelId: int): QuizQuestion
    requires levelId == 3
  {
    QuizQuestion(11, 3, MultipleChoice,
      "What should " + "be tested " + "in a " + "crowdfunding "
      + "contract?",
      options := Some([
        "Only the " + "contribution " + "function",
        "Contributions, " + "NFT " + "minting, " + "and goal "
        + "tracking",
        "Only the " + "withdrawal " + "function",
        "Only the " + "deadline " + "functionality"]),
      correctAnswer := "Contributions, " + "NFT " + "minting, " + "and goal "
      + "tracking",
      explanation :=
      "Comprehensive " + "testing " + "should " + "cover all "
      + "major " + "functionality: " + "accepting " + "contributions, "
      + "minting " + "NFTs, " + "tracking " + "progress, " + "and "
      + "handling " + "withdrawals.")
  }

  lemma Question11WellFormed(levelId: int)
    requires levelId == 3
    ensures QuestionWellFormed(Question11(levelId), 3)
  {
  }
}
