/** Level 4, "DAO Contract": `createLevel4` of DataManager and the question builders
    of its lessons. The Kotlin builders take no
    parameter. Here every piece of content takes the level's id, pinned by its precondition:
    the verifier expands the texts of a function with a parameter only where a proof calls
    it, while those of a parameterless function enter every proof that mentions it. The
    lemmas prove the facts the rest of the model relies on. */
module CatalogLevel4 {
  import opened Wrappers
  import opened Models
  import opened KotlinText
  import opened CatalogRules

  function CreateLevel4(id: int): Level
    requires id == 4
  {
    Level(id, "DAO Contract",
      "Create a " + "decentralized " + "autonomous " + "organization "
      + "with voting " + "mechanisms",
      IcDao,
      [Lesson(1, id, "DAO Structure and Governance Token",
         "Building " + "the " + "foundation " + "of a "
         + "decentralized " + "autonomous " + "organization",
         "contract " + "SimpleDAO"
         + " { ... }",
         explanation :=
         "A DAO uses " + "governance " + "tokens " + "(shares) to "
         + "allow " + "members to " + "vote on " + "proposals. " + "Each "
         + "proposal " + "has a " + "description, " + "amount, "
         + "recipient, " + "and voting " + "deadline.",
         quizQuestions := CreateLevel4BasicQuestions(id)),
       Lesson(2, id, "Proposal Creation and Voting",
         "Implementing " + "proposal " + "submission " + "and voting "
         + "mechanisms",
         "function " + "createProposal(...) " + "external { " + "... } "
         + "function " + "vote"
         + ("(uint256 " + "proposalId) " + "external { " + "... }"),
         explanation :=
         "Members can " + "create " + "proposals " + "and vote "
         + "using their " + "shares. " + "Each member " + "can only "
         + "vote once " + "per " + "proposal, " + "and voting "
         + "power is " + "proportional " + "to shares " + "owned.",
         quizQuestions := CreateLevel4VotingQuestions(id)),
       Lesson(3, id, "Proposal Execution and DAO Testing",
         "Executing " + "approved " + "proposals " + "and testing "
         + "DAO " + "functionality",
         "function " + "executeProposal"
         + ("(uint256 " + "proposalId) " + "external { " + "... }"),
         explanation :=
         "Proposals " + "are " + "executed if " + "they " + "receive "
         + "majority " + "votes (>50% " + "of total " + "shares). "
         + "The DAO " + "transfers " + "funds to " + "the " + "specified "
         + "recipient " + "upon " + "successful " + "execution.",
         quizQuestions := CreateLevel4ExecutionQuestions(id))])
  }

  /** Level 4 has the shape of a catalog level, and each of its quizzes is well-formed. */
  lemma CreateLevel4IsCatalogLevel(id: int)
    requires id == 4
    ensures CatalogLevel(CreateLevel4(id), id)
  {
    CreateLevel4BasicQuestionsWellFormed(id);
    CreateLevel4VotingQuestionsWellFormed(id);
    CreateLevel4ExecutionQuestionsWellFormed(id);
  }

  /** The titles of level 4 and its lessons,
      and the identifiers its lessons' texts mention, as the app's own tests check them. */
  lemma CreateLevel4Content(id: int)
    requires id == 4
    ensures var l := CreateLevel4(id);
      && l.title == "DAO Contract"
      && l.lessons[0].title == "DAO Structure and Governance Token"
      && l.lessons[1].title == "Proposal Creation and Voting"
      && l.lessons[2].title == "Proposal Execution and DAO Testing"
      && Contains(l.lessons[0].codeContent, "SimpleDAO")
      && Contains(l.lessons[1].codeContent, "vote")
      && Contains(l.lessons[2].codeContent, "executeProposal")
  {
    ContainsInfix("contract ", "SimpleDAO",
      " { ... }");
    ContainsInfix("function " + "createProposal(...) " + "external { " + "... } "
        + "function ", "vote",
      ("(uint256 " + "proposalId) " + "external { " + "... }"));
    ContainsInfix("function ", "executeProposal",
      ("(uint256 " + "proposalId) " + "external { " + "... }"));
  }

  function CreateLevel4BasicQuestions(levelId: int): seq<QuizQuestion>
    requires levelId == 4
  {
    [Question12(levelId), Question13(levelId)]
  }

  lemma CreateLevel4BasicQuestionsWellFormed(levelId: int)
    requires levelId == 4
    ensures QuizWellFormed(CreateLevel4BasicQuestions(levelId), 1)
  {
    Question12WellFormed(levelId);
    Question13WellFormed(levelId);
  }

  function Question12(levelId: int): QuizQuestion
    requires levelId == 4
  {
    QuizQuestion(12, 1, MultipleChoice,
      "What " + "determines " + "voting " + "power in a " + "DAO?",
      options := Some([
        "The number " + "of " + "proposals " + "created",
        "The amount " + "of " + "shares/tokens " + "owned",
        "The time " + "since " + "joining",
        "The number " + "of votes " + "cast"]),
      correctAnswer := "The amount " + "of " + "shares/tokens " + "owned",
      explanation :=
      "In most " + "DAOs, " + "voting " + "power is " + "proportional "
      + "to the " + "number of " + "governance " + "tokens or "
      + "shares " + "owned by a " + "member.")
  }

  lemma Question12WellFormed(levelId: int)
    requires levelId == 4
    ensures QuestionWellFormed(Question12(levelId), 1)
  {
  }

  function Question13(levelId: int): QuizQuestion
    requires levelId == 4
  {
    QuizQuestion(13, 1, FillInTheBlank,
      "Complete " + "the DAO " + "proposal " + "structure:",
      codeSnippet := Some(
      "struct " + "Proposal { " + "uint256 id; " + "string ___; "
      + "uint256 " + "___; " + "address " + "payable " + "___; ... }"),
      correctAnswer :=
      "description" + "," + "amount" + "," + "recipient" + "," + "votes"
      + "," + "deadline" + "," + "executed" + "," + "voters",
      explanation :=
      "A proposal " + "contains " + "description, " + "amount, "
      + "recipient, " + "vote count, " + "deadline, " + "execution "
      + "status, and " + "voter " + "tracking.",
      blanks := Some([
        BlankField(1, "proposal description", "description", 1),
        BlankField(2, "funding amount", "amount", 2),
        BlankField(3, "payment recipient", "recipient", 3),
        BlankField(4, "vote count", "votes", 4),
        BlankField(5, "voting deadline", "deadline", 5),
        BlankField(6, "execution status", "executed", 6),
        BlankField(7, "voter tracking", "voters", 7)]))
  }

  lemma Question13WellFormed(levelId: int)
    requires levelId == 4
    ensures QuestionWellFormed(Question13(levelId), 1)
  {
    JoinSpelled7(BlankAnswers(Question13(levelId).blanks.value), ",");
  }

  function CreateLevel4VotingQuestions(levelId: int): seq<QuizQuestion>
    requires levelId == 4
  {
    [Question14(levelId)]
  }

  lemma CreateLevel4VotingQuestionsWellFormed(levelId: int)
    requires levelId == 4
    ensures QuizWellFormed(CreateLevel4VotingQuestions(levelId), 2)
  {
    Question14WellFormed(levelId);
  }

  function Question14(levelId: int): QuizQuestion
    requires levelId == 4
  {
    QuizQuestion(14, 2, FillInTheBlank,
      "Complete " + "the voting " + "function:",
      codeSnippet := Some(
      "function " + "vote(uint256 " + "proposalId) " + "external { "
      + "require(shares[___] " + "> 0, \"Must " + "be a " + "member\"); "
      + "... }"),
      correctAnswer :=
      "msg.sender" + "," + "proposalId" + "," + "deadline" + ","
      + "voters" + "," + "msg.sender" + "," + "voters" + ","
      + "msg.sender" + "," + "votes" + "," + "msg.sender",
      explanation :=
      "The vote " + "function " + "checks " + "membership, "
      + "deadline, " + "and " + "prevents " + "double " + "voting "
      + "while " + "adding vote " + "weight.",
      blanks := Some([
        BlankField(1, "voter address", "msg.sender", 1),
        BlankField(2, "proposal ID", "proposalId", 2),
        BlankField(3, "voting deadline", "deadline", 3),
        BlankField(4, "voter mapping", "voters", 4),
        BlankField(5, "voter address", "msg.sender", 5),
        BlankField(6, "voter mapping", "voters", 6),
        BlankField(7, "voter address", "msg.sender", 7),
        BlankField(8, "vote count", "votes", 8),
        BlankField(9, "voter shares", "msg.sender", 9)]))
  }

  lemma Question14WellFormed(levelId: int)
    requires levelId == 4
    ensures QuestionWellFormed(Question14(levelId), 2)
  {
    JoinSpelled9(BlankAnswers(Question14(levelId).blanks.value), ",");
  }

  function CreateLevel4ExecutionQuestions(levelId: int): seq<QuizQuestion>
    requires levelId == 4
  {
    [Question15(levelId)]
  }

  lemma CreateLevel4ExecutionQuestionsWellFormed(levelId: int)
    requires levelId == 4
    ensures QuizWellFormed(CreateLevel4ExecutionQuestions(levelId), 3)
  {
    Question15WellFormed(levelId);
  }

  function Question15(levelId: int): QuizQuestion
    requires levelId == 4
  {
    QuizQuestion(15, 3, MultipleChoice,
      "What " + "condition " + "must be met " + "to execute " + "a DAO "
      + "proposal?",
      options := Some([
        "Any number " + "of votes",
        "Majority of " + "total " + "shares " + "(>50%)",
        "Unanimous " + "approval",
        "Only the " + "owner's " + "approval"]),
      correctAnswer := "Majority of " + "total " + "shares " + "(>50%)",
      explanation :=
      "Most DAOs " + "require a " + "majority " + "vote (more "
      + "than 50% of " + "total " + "voting " + "power) to " + "execute "
      + "proposals.")
  }

  lemma Question15WellFormed(levelId: int)
    requires levelId == 4
    ensures QuestionWellFormed(Question15(levelId), 3)
  {
  }
}
