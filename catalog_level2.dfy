/** Level 2, "ERC-721 NFT Contract": `createLevel2` of DataManager and the question builders
    of its lessons. The Kotlin builders take no
    parameter. Here every piece of content takes the level's id, pinned by its precondition:
    the verifier expands the texts of a function with a parameter only where a proof calls
    it, while those of a parameterless function enter every proof that mentions it. The
    lemmas prove the facts the rest of the model relies on. */
module CatalogLevel2 {
  import opened Wrappers
  import opened Models
  import opened KotlinText
  import opened CatalogRules

  function CreateLevel2(id: int): Level
    requires id == 2
  {
    Level(id, "ERC-721 NFT Contract",
      "Create " + "unique " + "digital " + "assets with " + "NFT "
      + "contracts " + "and " + "comprehensive " + "testing",
      IcNft,
      [Lesson(1, id, "ERC-721 NFT Basics",
         "Understanding " + "Non-Fungible " + "Tokens",
         "contract " + "MyNFT is " + "ERC721"
         + (" { ... " + "function " + "safeMint(address "
            + "to) public " + "{ ... } }"),
         explanation :=
         "ERC-721 " + "tokens are " + "unique, " + "non-fungible"
         + (" tokens. " + "Each token " + "has a " + "unique ID "
            + "and can " + "represent " + "ownership " + "of digital "
            + "assets. The " + "safeMint " + "function " + "creates new "
            + "tokens with " + "incremental " + "IDs."),
         quizQuestions := CreateLevel2Questions(id)),
       Lesson(2, id, "NFT Metadata and Testing",
         "Adding " + "metadata " + "and writing " + "JavaScript "
         + "tests",
         "describe('MyNFT', " + "function () " + "{ ... "
         + "it('Should " + "mint NFT " + "correctly', " + "...) })",
         explanation :=
         "Testing NFT " + "contracts " + "involves " + "verifying "
         + "minting " + "functionality, " + "ownership " + "transfers, "
         + "and " + "metadata " + "handling. " + "Each test " + "should "
         + "check " + "specific " + "contract " + "behaviors.",
         quizQuestions := CreateLevel2TestQuestions(id))])
  }

  /** Level 2 has the shape of a catalog level, and each of its quizzes is well-formed. */
  lemma CreateLevel2IsCatalogLevel(id: int)
    requires id == 2
    ensures CatalogLevel(CreateLevel2(id), id)
  {
    CreateLevel2QuestionsWellFormed(id);
    CreateLevel2TestQuestionsWellFormed(id);
  }

  /** The titles of level 2 and its lessons,
      and the identifiers its lessons' texts mention, as the app's own tests check them. */
  lemma CreateLevel2Content(id: int)
    requires id == 2
    ensures var l := CreateLevel2(id);
      && l.title == "ERC-721 NFT Contract"
      && l.lessons[0].title == "ERC-721 NFT Basics"
      && l.lessons[1].title == "NFT Metadata and Testing"
      && Contains(l.lessons[0].codeContent, "ERC721")
      && Contains(l.lessons[0].explanation, "non-fungible")
  {
    ContainsInfix("contract " + "MyNFT is ", "ERC721",
      (" { ... " + "function " + "safeMint(address " + "to) public "
         + "{ ... } }"));
    ContainsInfix("ERC-721 " + "tokens are " + "unique, ", "non-fungible",
      (" tokens. " + "Each token " + "has a " + "unique ID "
         + "and can " + "represent " + "ownership " + "of digital "
         + "assets. The " + "safeMint " + "function " + "creates new "
         + "tokens with " + "incremental " + "IDs."));
  }

  function CreateLevel2Questions(levelId: int): seq<QuizQuestion>
    requires levelId == 2
  {
    [Question4(levelId), Question5(levelId)]
  }

  lemma CreateLevel2QuestionsWellFormed(levelId: int)
    requires levelId == 2
    ensures QuizWellFormed(CreateLevel2Questions(levelId), 1)
  {
    Question4WellFormed(levelId);
    Question5WellFormed(levelId);
  }

  function Question4(levelId: int): QuizQuestion
    requires levelId == 2
  {
    QuizQuestion(4, 1, MultipleChoice,
      "What makes " + "ERC-721 " + "tokens " + "different "
      + "from ERC-20 " + "tokens?",
      options := Some([
        "They are " + "fungible",
        "They are " + "non-fungible " + "and unique",
        "They cannot " + "be " + "transferred",
        "They don't " + "have " + "metadata"]),
      correctAnswer := "They are " + "non-fungible " + "and unique",
      explanation :=
      "ERC-721 " + "tokens are " + "non-fungible, " + "meaning "
      + "each token " + "is unique " + "and cannot " + "be replaced "
      + "by another " + "token.")
  }

  lemma Question4WellFormed(levelId: int)
    requires levelId == 2
    ensures QuestionWellFormed(Question4(levelId), 1)
  {
  }

  function Question5(levelId: int): QuizQuestion
    requires levelId == 2
  {
    QuizQuestion(5, 1, FillInTheBlank,
      "Complete " + "the NFT " + "minting " + "function:",
      codeSnippet := Some(
      "function " + "safeMint(address " + "to) public " + "{ uint256 "
      + "tokenId = " + "___; ___++; " + "_safeMint(___, " + "___); }"),
      correctAnswer :=
      "_tokenIdCounter" + "," + "_tokenIdCounter" + "," + "to" + ","
      + "tokenId",
      explanation :=
      "The " + "safeMint " + "function " + "uses a " + "counter for "
      + "unique " + "token IDs " + "and calls " + "_safeMint "
      + "with the " + "recipient " + "and token " + "ID.",
      blanks := Some([
        BlankField(1, "counter variable", "_tokenIdCounter", 1),
        BlankField(2, "increment counter", "_tokenIdCounter", 2),
        BlankField(3, "recipient address", "to", 3),
        BlankField(4, "token ID", "tokenId", 4)]))
  }

  lemma Question5WellFormed(levelId: int)
    requires levelId == 2
    ensures QuestionWellFormed(Question5(levelId), 1)
  {
    JoinSpelled4(BlankAnswers(Question5(levelId).blanks.value), ",");
  }

  function CreateLevel2TestQuestions(levelId: int): seq<QuizQuestion>
    requires levelId == 2
  {
    [Question6(levelId), Question7(levelId)]
  }

  lemma CreateLevel2TestQuestionsWellFormed(levelId: int)
    requires levelId == 2
    ensures QuizWellFormed(CreateLevel2TestQuestions(levelId), 2)
  {
    Question6WellFormed(levelId);
    Question7WellFormed(levelId);
  }

  function Question6(levelId: int): QuizQuestion
    requires levelId == 2
  {
    QuizQuestion(6, 2, MultipleChoice,
      "What " + "function is " + "used to " + "check the "
      + "owner of an " + "NFT?",
      options := Some([
        "balanceOf",
        "ownerOf",
        "tokenURI",
        "approve"]),
      correctAnswer := "ownerOf",
      explanation :=
      "The ownerOf " + "function " + "returns the " + "address "
      + "that owns a " + "specific " + "token ID.")
  }

  lemma Question6WellFormed(levelId: int)
    requires levelId == 2
    ensures QuestionWellFormed(Question6(levelId), 2)
  {
  }

  function Question7(levelId: int): QuizQuestion
    requires levelId == 2
  {
    QuizQuestion(7, 2, FillInTheBlank,
      "Complete " + "the NFT " + "test:",
      codeSnippet := Some(
      "it('Should " + "mint NFT " + "correctly', " + "async "
      + "function () " + "{ await " + "nft.___(___.address); " + "... })"),
      correctAnswer :=
      "safeMint" + "," + "addr1" + "," + "ownerOf" + "," + "addr1",
      explanation :=
      "The test " + "calls " + "safeMint to " + "create an "
      + "NFT and " + "checks " + "ownership " + "with " + "ownerOf.",
      blanks := Some([
        BlankField(1, "mint function", "safeMint", 1),
        BlankField(2, "recipient", "addr1", 2),
        BlankField(3, "owner check function", "ownerOf", 3),
        BlankField(4, "expected owner", "addr1", 4)]))
  }

  lemma Question7WellFormed(levelId: int)
    requires levelId == 2
    ensures QuestionWellFormed(Question7(levelId), 2)
  {
    JoinSpelled4(BlankAnswers(Question7(levelId).blanks.value), ",");
  }
}
