/** `/api/level-test`: POST grades a finished test with the AI and stores
    the result as the user's level; GET asks the AI for a question set. A
    reply that does not parse as JSON falls back to fixed defaults. */
module LevelTestRoute {
  import opened Wrappers
  import opened Json
  import opened Store
  import opened Http
  import Tables
  import Sessions
  import AI

  const AnswersRequired := "Questions and answers are required"

  /** The evaluation the AI is asked to return. */
  datatype Evaluation = Evaluation(result: string, score: real, feedback: string)

  datatype TestReply = TestReply(result: string, score: real, feedback: string, testId: Id)

  const EvaluatorPrompt := "You are a Korean language proficiency evaluator. Evaluate the student's answers and determine their level.\n"
    + "\n"
    + "    Levels:\n"
    + "    - Beginner: Basic vocabulary, simple sentences, limited grammar\n"
    + "    - Intermediate: Good vocabulary, complex sentences, understanding of grammar rules\n"
    + "    - Professional: Advanced vocabulary, nuanced expressions, native-like proficiency\n"
    + "\n"
    + "    Respond in JSON format:\n"
    + "    {\n"
    + "      \"result\": \"Beginner|Intermediate|Professional\",\n"
    + "      \"score\": 0.0-1.0,\n"
    + "      \"feedback\": \"Detailed feedback on performance\"\n"
    + "    }"

  const CreatorPrompt := "You are a Korean language test creator. Create a comprehensive level test with 5 questions.\n"
    + "\n"
    + "    Include:\n"
    + "    - Speaking questions (pronunciation, fluency)\n"
    + "    - Grammar questions\n"
    + "    - Vocabulary questions\n"
    + "    - Comprehension questions\n"
    + "\n"
    + "    Respond in JSON format:\n"
    + "    {\n"
    + "      \"questions\": [\n"
    + "        {\n"
    + "          \"type\": \"speaking|grammar|vocabulary|comprehension\",\n"
    + "          \"question\": \"Question text\",\n"
    + "          \"hint\": \"Optional hint\"\n"
    + "        }\n"
    + "      ]\n"
    + "    }"

  const CreateTestRequest := "Create a Korean language proficiency test with 5 diverse questions."

  /** The grading request; `stringify` is `JSON.stringify`. */
  function EvaluationPrompt(questions: Value, answers: Value, stringify: Value -> string): string {
    "Questions: " + stringify(questions) + "\n\nAnswers: " + stringify(answers)
    + "\n\nEvaluate the student's Korean language proficiency level."
  }

  const FallbackEvaluation := Evaluation("Beginner", 0.5, "Evaluation completed")

  /** The parsed evaluation, or the fallback when `parse` (`JSON.parse`)
      throws. */
  function EvaluationOf(content: string, parse: string -> Option<Evaluation>): (e: Evaluation)
    ensures parse(content).None? ==> e == FallbackEvaluation
    ensures parse(content).Some? ==> e == parse(content).value
  {
    parse(content).GetOr(FallbackEvaluation)
  }

  function Question(kind: string, text: string): Value {
    Obj([("type", Str(kind)), ("question", Str(text))])
  }

  /** The five questions used when the AI's reply is not JSON. */
  const FallbackQuestions := Obj([("questions", Arr([
    Question("speaking", "Please introduce yourself in Korean."),
    Question("grammar", "Complete: 저는 한국어를 ___ 좋아합니다."),
    Question("vocabulary", "What does \"안녕하세요\" mean?"),
    Question("comprehension", "Read this: \"오늘 날씨가 좋습니다.\" What does it mean?"),
    Question("speaking", "Describe your favorite food in Korean.")]))])

  /** The fallback set is the `questions` member holding five questions,
      whose `type` members are speaking, grammar, vocabulary, comprehension
      and speaking again. */
  lemma FallbackQuestionKinds()
    ensures FallbackQuestions.members[0].0 == "questions" && FallbackQuestions.members[0].1.Arr?
    ensures var qs := FallbackQuestions.members[0].1.items;
      var kinds := ["speaking", "grammar", "vocabulary", "comprehension", "speaking"];
      && |qs| == |kinds|
      && forall i | 0 <= i < |qs| :: qs[i].Obj? && qs[i].members[0] == ("type", Str(kinds[i]))
  {
  }

  /** `GET /api/level-test`: 401 without a current user, 500 when no
      provider answers, else the parsed question set or the fallback set. */
  function GetLevelTest(sessions: seq<SessionRow>, users: seq<User>, cookies: map<string, Cookie>, now: int,
                        ai: AI.AIClient, oracle: AI.Request -> AI.Reply, parse: string -> Option<Value>): (r: Response<Value>)
    ensures Sessions.GetCurrentUser(sessions, users, cookies, now).None? <==> r == Fail(Unauthorized, UnauthorizedMessage)
    ensures Sessions.GetCurrentUser(sessions, users, cookies, now).Some? ==>
      var g := ai.GenerateText(CreateTestRequest, Some(CreatorPrompt), AI.NoOptions, oracle).result;
      && (g.AllProvidersFailed? <==> r == Fail(ServerError, ServerErrorMessage))
      && (g.Generated? && parse(g.content).None? ==> r == Ok(FallbackQuestions))
      && (g.Generated? && parse(g.content).Some? ==> r == Ok(parse(g.content).value))
  {
    if Sessions.GetCurrentUser(sessions, users, cookies, now).None? then Fail(Unauthorized, UnauthorizedMessage)
    else
      var g := ai.GenerateText(CreateTestRequest, Some(CreatorPrompt), AI.NoOptions, oracle).result;
      if g.AllProvidersFailed? then Fail(ServerError, ServerErrorMessage)
      else Ok(parse(g.content).GetOr(FallbackQuestions))
  }

  /** The grade of one submission. */
  function Grade(ai: AI.AIClient, body: (Value, Value), oracle: AI.Request -> AI.Reply,
                 stringify: Value -> string): AI.Generated
  {
    ai.GenerateText(EvaluationPrompt(body.0, body.1, stringify), Some(EvaluatorPrompt), AI.NoOptions, oracle).result
  }

  /** Stores the test row and sets the user's level to the evaluation's
      result, whatever that string is. */
  method SaveEvaluation(db: Database, userId: Id, questions: Value, answers: Value, e: Evaluation)
    returns (testId: Id)
    requires db.Valid()
    modifies db`levelTests, db`nextId, db`users
    ensures db.Valid()
    ensures testId == old(db.nextId)
    ensures db.levelTests == old(db.levelTests) + [LevelTest(testId, userId, questions, answers, e.result, e.score)]
    ensures var k := Tables.IndexOf(old(db.users), (u: User) => u.id == userId);
      db.users == if k == -1 then old(db.users) else old(db.users)[k := old(db.users)[k].(level := e.result)]
  {
    testId := db.nextId;
    db.levelTests := db.levelTests + [LevelTest(testId, userId, questions, answers, e.result, e.score)];
    db.nextId := db.nextId + 1;
    var k := Tables.IndexOf(db.users, (u: User) => u.id == userId);
    if k != -1 {
      db.users := db.users[k := db.users[k].(level := e.result)];
    }
  }

  /** `POST /api/level-test`: 401 without a current user, 400 when the
      questions or answers are missing, 500 when no provider answers; in
      these cases nothing is stored. Otherwise the evaluation (parsed, or the
      fallback) is stored as a test row and as the user's new level. */
  method PostLevelTest(db: Database, cookies: map<string, Cookie>, now: int, ai: AI.AIClient,
                       oracle: AI.Request -> AI.Reply, questions: Value, answers: Value,
                       stringify: Value -> string, parse: string -> Option<Evaluation>)
    returns (r: Response<TestReply>)
    requires db.Valid()
    modifies db`levelTests, db`nextId, db`users
    ensures db.Valid()
    ensures Sessions.GetCurrentUser(old(db.sessions), old(db.users), cookies, now).None? ==> r == Fail(Unauthorized, UnauthorizedMessage)
    ensures Sessions.GetCurrentUser(old(db.sessions), old(db.users), cookies, now).Some? && !(Truthy(questions) && Truthy(answers)) ==>
      r == Fail(BadRequest, AnswersRequired)
    ensures r.Fail? ==> db.levelTests == old(db.levelTests) && db.users == old(db.users)
    ensures Sessions.GetCurrentUser(old(db.sessions), old(db.users), cookies, now).Some? && Truthy(questions) && Truthy(answers) ==>
      var user := Sessions.GetCurrentUser(old(db.sessions), old(db.users), cookies, now).value;
      var g := Grade(ai, (questions, answers), oracle, stringify);
      var e := EvaluationOf(if g.Generated? then g.content else "", parse);
      var k := Tables.IndexOf(old(db.users), (u: User) => u.id == user.id);
      && (g.AllProvidersFailed? <==> r == Fail(ServerError, ServerErrorMessage))
      && (g.Generated? ==>
            && r == Ok(TestReply(e.result, e.score, e.feedback, old(db.nextId)))
            && db.levelTests == old(db.levelTests) + [LevelTest(old(db.nextId), user.id, questions, answers, e.result, e.score)]
            && 0 <= k && db.users == old(db.users)[k := old(db.users)[k].(level := e.result)])
  {
    var user := Sessions.GetCurrentUser(db.sessions, db.users, cookies, now);
    if user.None? {
      return Fail(Unauthorized, UnauthorizedMessage);
    }
    if !Truthy(questions) || !Truthy(answers) {
      return Fail(BadRequest, AnswersRequired);
    }
    var g := Grade(ai, (questions, answers), oracle, stringify);
    if g.AllProvidersFailed? {
      return Fail(ServerError, ServerErrorMessage);
    }
    var e := EvaluationOf(g.content, parse);
    var testId := SaveEvaluation(db, user.value.id, questions, answers, e);
    r := Ok(TestReply(e.result, e.score, e.feedback, testId));
  }
}
