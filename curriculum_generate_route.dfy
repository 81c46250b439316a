/** `POST /api/admin/curriculum/generate`: an admin asks the AI for a
    curriculum on a topic at a difficulty; the reply (or a fallback built
    from the request) is stored with source 'ai_generated'. */
module CurriculumGenerateRoute {
  import opened Wrappers
  import opened Store
  import opened Http
  import AdminAuth
  import AI
  import CurriculumRoute

  const TopicRequired := "Topic and difficulty are required"
  const GeneratedSource := "ai_generated"

  /** The body's fields; absent when missing or null. */
  datatype GenerateBody = GenerateBody(topic: Option<string>, difficulty: Option<string>,
                                       learningObjectives: Option<string>, description: Option<string>)

  /** The fields the AI is asked for. A title or content the reply lacks is
      the empty string; a description it lacks, or gives as null, is
      `None`. */
  datatype GeneratedData = GeneratedData(title: string, content: string, description: Option<string>)

  predicate Given(s: Option<string>) {
    s.Some? && s.value != ""
  }

  const PlannerPrompt := "You are a Korean language curriculum generator. Create a comprehensive Korean language learning curriculum based on the provided information.\n"
    + "    \n"
    + "    The curriculum should be structured, educational, and appropriate for the specified difficulty level.\n"
    + "    Include:\n"
    + "    1. Detailed learning content\n"
    + "    2. Vocabulary lists\n"
    + "    3. Grammar points\n"
    + "    4. Practice exercises\n"
    + "    5. Cultural context (if relevant)\n"
    + "    \n"
    + "    Respond in JSON format:\n"
    + "    {\n"
    + "      \"title\": \"Curriculum Title\",\n"
    + "      \"content\": \"Detailed curriculum content with sections, vocabulary, grammar, exercises\",\n"
    + "      \"description\": \"Brief description of the curriculum\"\n"
    + "    }"

  const PromptHead := "Create a Korean language learning curriculum with the following specifications:\n- Topic: "
  const PromptTail := "\n\nGenerate a comprehensive curriculum that includes vocabulary, grammar, examples, and practice materials."

  /** A line of the request that is present only when its value was given
      (it is empty otherwise). */
  function OptionalLine(heading: string, value: Option<string>): (r: string)
    ensures Given(value) ==> r == heading + value.value
    ensures !Given(value) ==> r == ""
  {
    if Given(value) then heading + value.value else ""
  }

  /** The request: topic and level lines, then the objectives line and the
      context line, each left empty when not given. */
  function Prompt(topic: string, difficulty: string, objectives: Option<string>, description: Option<string>): string
  {
    PromptHead + topic + "\n- Difficulty Level: " + difficulty + "\n"
    + OptionalLine("- Learning Objectives: ", objectives) + "\n"
    + OptionalLine("- Additional Context: ", description) + PromptTail
  }

  /** The structure used when the reply is not JSON. */
  function Fallback(topic: string, difficulty: string, description: Option<string>, raw: string): GeneratedData {
    GeneratedData(topic + " - " + difficulty + " Level", raw,
                  Some(if Given(description) then description.value
                       else "Korean language curriculum for " + topic + " at " + difficulty + " level"))
  }

  /** `x || y` where either side may be absent: `x` when it is a non-empty
      string, else `y` as it is, absent included. */
  function OrGiven(x: Option<string>, y: Option<string>): (r: Option<string>)
    ensures Given(x) ==> r == x
    ensures !Given(x) ==> r == y
  {
    if Given(x) then x else y
  }

  /** The stored title, description and content: parsed values where given,
      else `${topic} - ${difficulty}`, the request's description (absent
      when the request has none) and the raw reply. */
  function Stored(topic: string, difficulty: string, description: Option<string>, raw: string,
                  parsed: Option<GeneratedData>): (d: GeneratedData)
    ensures parsed.Some? ==>
      && d.title == CurriculumRoute.Or(parsed.value.title, topic + " - " + difficulty)
      && d.description == (if Given(parsed.value.description) then parsed.value.description else description)
      && d.content == CurriculumRoute.Or(parsed.value.content, raw)
  {
    var data := parsed.GetOr(Fallback(topic, difficulty, description, raw));
    GeneratedData(CurriculumRoute.Or(data.title, topic + " - " + difficulty),
                  CurriculumRoute.Or(data.content, raw),
                  OrGiven(data.description, description))
  }

  /** On an unparseable (non-empty) reply the stored title is
      `${topic} - ${difficulty} Level`, the content is the raw reply, and the
      description is the request's or the default sentence. */
  lemma FallbackStored(topic: string, difficulty: string, description: Option<string>, raw: string)
    requires raw != ""
    ensures var d := Stored(topic, difficulty, description, raw, None);
      && d.title == topic + " - " + difficulty + " Level"
      && d.content == raw
      && d.description == Some(if Given(description) then description.value
                               else "Korean language curriculum for " + topic + " at " + difficulty + " level")
  {
    var t := topic + " - " + difficulty + " Level";
    assert |t| >= |" Level"|;
    var dflt := "Korean language curriculum for " + topic + " at " + difficulty + " level";
    assert |dflt| >= |" level"|;
  }

  /** With no description in the request and none in the parsed reply, no
      description is stored; an empty one in the reply gives way to the
      request's, absent or not. */
  lemma AbsentDescriptionStaysAbsent(topic: string, difficulty: string, raw: string, title: string, content: string,
                                     replyDescription: Option<string>, description: Option<string>)
    requires !Given(replyDescription)
    ensures Stored(topic, difficulty, description, raw, Some(GeneratedData(title, content, replyDescription))).description
      == description
  {
  }

  function Ask(ai: AI.AIClient, body: GenerateBody, oracle: AI.Request -> AI.Reply): AI.Generated
    requires Given(body.topic) && Given(body.difficulty)
  {
    ai.GenerateText(Prompt(body.topic.value, body.difficulty.value, body.learningObjectives, body.description),
                    Some(PlannerPrompt), AI.NoOptions, oracle).result
  }

  /** What follows generation: 500 when no provider answered, with nothing
      stored; otherwise one curriculum row with the request's topic and
      difficulty and source 'ai_generated'. */
  method Answer(db: Database, topic: string, difficulty: string, description: Option<string>, g: AI.Generated,
                parse: string -> Option<GeneratedData>, now: int)
    returns (r: Response<CurriculumRoute.CurriculumReply>)
    requires db.Valid()
    modifies db`curricula, db`nextId
    ensures db.Valid()
    ensures g.AllProvidersFailed? ==> r == Fail(ServerError, ServerErrorMessage) && db.curricula == old(db.curricula)
    ensures g.Generated? ==>
      var d := Stored(topic, difficulty, description, g.content, parse(g.content));
      && r == Ok(CurriculumRoute.CurriculumReply(old(db.nextId), d.title, topic, difficulty))
      && db.curricula == old(db.curricula) + [Curriculum(old(db.nextId), d.title, topic, difficulty,
                                                         d.description, d.content, GeneratedSource, None, now)]
  {
    if g.AllProvidersFailed? {
      return Fail(ServerError, ServerErrorMessage);
    }
    var d := Stored(topic, difficulty, description, g.content, parse(g.content));
    var row := CurriculumRoute.CurriculumData(d.title, topic, difficulty, d.description, d.content);
    var id := CurriculumRoute.SaveCurriculum(db, row, GeneratedSource, None, now);
    r := Ok(CurriculumRoute.CurriculumReply(id, d.title, topic, difficulty));
  }

  /** The handler: 401 without an admin session, 400 without topic and
      difficulty, 500 when no provider answers, and in these cases nothing is
      stored; otherwise one curriculum row whose topic and difficulty are the
      request's. */
  method PostGenerate(db: Database, cookies: map<string, Cookie>, now: int, ai: AI.AIClient,
                      oracle: AI.Request -> AI.Reply, body: GenerateBody, parse: string -> Option<GeneratedData>)
    returns (r: Response<CurriculumRoute.CurriculumReply>)
    requires db.Valid()
    modifies db`curricula, db`nextId
    ensures db.Valid()
    ensures var admin := AdminAuth.GetCurrentAdmin(db.adminUsers, db.accessLog, cookies, now);
      && (admin.None? ==> r == Fail(Unauthorized, UnauthorizedMessage))
      && (admin.Some? && !(Given(body.topic) && Given(body.difficulty)) ==> r == Fail(BadRequest, TopicRequired))
    ensures r.Fail? ==> db.curricula == old(db.curricula)
    ensures AdminAuth.GetCurrentAdmin(db.adminUsers, db.accessLog, cookies, now).Some? && Given(body.topic) && Given(body.difficulty) ==>
      var g := Ask(ai, body, oracle);
      && (g.AllProvidersFailed? <==> r == Fail(ServerError, ServerErrorMessage))
      && (g.Generated? ==>
            var d := Stored(body.topic.value, body.difficulty.value, body.description, g.content, parse(g.content));
            && r == Ok(CurriculumRoute.CurriculumReply(old(db.nextId), d.title, body.topic.value, body.difficulty.value))
            && db.curricula == old(db.curricula) + [Curriculum(old(db.nextId), d.title, body.topic.value,
                 body.difficulty.value, d.description, d.content, GeneratedSource, None, now)])
  {
    var admin := AdminAuth.GetCurrentAdmin(db.adminUsers, db.accessLog, cookies, now);
    if admin.None? {
      return Fail(Unauthorized, UnauthorizedMessage);
    }
    if !Given(body.topic) || !Given(body.difficulty) {
      return Fail(BadRequest, TopicRequired);
    }
    var g := Ask(ai, body, oracle);
    r := Answer(db, body.topic.value, body.difficulty.value, body.description, g, parse, now);
  }
}
