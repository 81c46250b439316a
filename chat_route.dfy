/** `POST /api/interactive/chat`: one turn of the tutoring conversation.
    The reply is generated and the exchange appended to the named
    transcript, or a new transcript is started. */
module ChatRoute {
  import opened Wrappers
  import opened Store
  import opened Http
  import Tables
  import Sessions
  import AI

  const TopicRequired := "Topic and difficulty are required"
  const StartConversation := "Start conversation"
  const ChatTemperature: real := 0.8
  const ChatMaxTokens := 300

  /** The body's fields; a field is absent (`None`) when missing or null. */
  datatype ChatBody = ChatBody(topic: Option<string>, difficulty: Option<string>, message: Option<string>,
                               sessionId: Option<Id>)

  datatype ChatReply = ChatReply(message: string, sessionId: Id, provider: AI.Provider)

  predicate Given(s: Option<string>) {
    s.Some? && s.value != ""
  }

  /** The tutor's instructions around the level and topic lines. */
  const TutorIntro := "You are a Korean language conversation tutor. You are having a conversation with a student learning Korean.\n"
    + "    \n"
    + "    Student Level: "
  const TutorGuidelines := "\n"
    + "    \n"
    + "    Guidelines:\n"
    + "    - Speak naturally in Korean, appropriate for the student's level\n"
    + "    - Use simple vocabulary and grammar for Beginner level\n"
    + "    - Gradually increase complexity for Intermediate and Professional levels\n"
    + "    - Ask questions to encourage the student to practice speaking\n"
    + "    - Provide gentle corrections when needed\n"
    + "    - Keep responses conversational and engaging\n"
    + "    - If the student is silent or doesn't respond, encourage them to speak or repeat your question"

  function SystemPrompt(topic: string, difficulty: string): string {
    TutorIntro + difficulty + "\n    Topic: " + topic + TutorGuidelines
  }

  /** The message when one was given, else the opening request naming the
      topic. */
  function Prompt(topic: string, message: Option<string>): (r: string)
    ensures Given(message) ==> r == message.value
    ensures !Given(message) ==>
      r == "Let's start a conversation about " + topic + ". Please begin the conversation in Korean."
  {
    if Given(message) then message.value
    else "Let's start a conversation about " + topic + ". Please begin the conversation in Korean."
  }

  const ChatOptions := AI.Options(Some(ChatTemperature), Some(ChatMaxTokens))

  /** The two transcript entries of one turn: the student's message (or the
      start marker) and the assistant's reply. */
  function Exchange(message: Option<string>, reply: string): (r: seq<ChatEntry>)
    ensures |r| == 2 && r[0].role == "user" && r[1] == ChatEntry("assistant", reply)
    ensures r[0].content == if Given(message) then message.value else StartConversation
  {
    [ChatEntry("user", if Given(message) then message.value else StartConversation), ChatEntry("assistant", reply)]
  }

  /** Position of the transcript the body names, or -1. */
  function SessionIndex(sessions: seq<ChatSession>, sessionId: Option<Id>): (k: int)
    ensures -1 <= k < |sessions|
    ensures k >= 0 ==> sessionId.Some? && sessions[k].id == sessionId.value
    ensures k == -1 <==> sessionId.None? || forall i | 0 <= i < |sessions| :: sessions[i].id != sessionId.value
  {
    if sessionId.None? then -1 else Tables.IndexOf(sessions, (s: ChatSession) => s.id == sessionId.value)
  }

  /** The generated tutor turn for a body that names its topic and
      difficulty. */
  function TutorReply(ai: AI.AIClient, topic: string, difficulty: string, message: Option<string>,
                      oracle: AI.Request -> AI.Reply): AI.Generated
  {
    ai.GenerateText(Prompt(topic, message), Some(SystemPrompt(topic, difficulty)), ChatOptions, oracle).result
  }

  /** `messages.push(...)` on the loaded transcript, then the update. */
  method AppendExchange(db: Database, k: nat, entries: seq<ChatEntry>)
    requires db.Valid() && k < |db.chatSessions|
    modifies db`chatSessions
    ensures db.Valid()
    ensures db.chatSessions == old(db.chatSessions)[k := old(db.chatSessions)[k].(
              messages := old(db.chatSessions)[k].messages + entries)]
  {
    var existing := db.chatSessions[k];
    var messages := existing.messages + entries;
    db.chatSessions := db.chatSessions[k := existing.(messages := messages)];
  }

  /** The insert of a new transcript with the next id. */
  method StartSession(db: Database, userId: Id, topic: string, difficulty: string, entries: seq<ChatEntry>)
    returns (id: Id)
    requires db.Valid()
    modifies db`chatSessions, db`nextId
    ensures db.Valid()
    ensures id == old(db.nextId)
    ensures db.chatSessions == old(db.chatSessions) + [ChatSession(id, userId, topic, difficulty, entries)]
  {
    id := db.nextId;
    db.chatSessions := db.chatSessions + [ChatSession(id, userId, topic, difficulty, entries)];
    db.nextId := db.nextId + 1;
  }

  /** The store update of a generated turn: append to the named transcript,
      or start a new one owned by `userId`. */
  method SaveTurn(db: Database, userId: Id, topic: string, difficulty: string, message: Option<string>,
                  sessionId: Option<Id>, content: string) returns (id: Id)
    requires db.Valid()
    modifies db`chatSessions, db`nextId
    ensures db.Valid()
    ensures var k := SessionIndex(old(db.chatSessions), sessionId);
      && (k >= 0 ==>
            && id == sessionId.value
            && db.chatSessions == old(db.chatSessions)[k := old(db.chatSessions)[k].(
                 messages := old(db.chatSessions)[k].messages + Exchange(message, content))])
      && (k == -1 ==>
            && id == old(db.nextId)
            && db.chatSessions == old(db.chatSessions) + [ChatSession(id, userId, topic, difficulty, Exchange(message, content))])
  {
    var k := SessionIndex(db.chatSessions, sessionId);
    if k >= 0 {
      AppendExchange(db, k, Exchange(message, content));
      id := sessionId.value;
    } else {
      id := StartSession(db, userId, topic, difficulty, Exchange(message, content));
    }
  }

  /** What follows generation: 500 when no provider answered, with nothing
      stored; otherwise the saved turn and the reply naming its transcript. */
  method Answer(db: Database, userId: Id, topic: string, difficulty: string, message: Option<string>,
                sessionId: Option<Id>, g: AI.Generated) returns (r: Response<ChatReply>)
    requires db.Valid()
    modifies db`chatSessions, db`nextId
    ensures db.Valid()
    ensures g.AllProvidersFailed? ==> r == Fail(ServerError, ServerErrorMessage) && db.chatSessions == old(db.chatSessions)
    ensures g.Generated? ==>
      var k := SessionIndex(old(db.chatSessions), sessionId);
      && (k >= 0 ==>
            && r == Ok(ChatReply(g.content, sessionId.value, g.provider))
            && db.chatSessions == old(db.chatSessions)[k := old(db.chatSessions)[k].(
                 messages := old(db.chatSessions)[k].messages + Exchange(message, g.content))])
      && (k == -1 ==>
            && r == Ok(ChatReply(g.content, old(db.nextId), g.provider))
            && db.chatSessions == old(db.chatSessions) + [ChatSession(old(db.nextId), userId, topic, difficulty,
                                                                      Exchange(message, g.content))])
  {
    if g.AllProvidersFailed? {
      return Fail(ServerError, ServerErrorMessage);
    }
    var id := SaveTurn(db, userId, topic, difficulty, message, sessionId, g.content);
    r := Ok(ChatReply(g.content, id, g.provider));
  }

  /** The handler, with `ai` the shared client and `oracle` the providers'
      replies. 401 without a current user, 400 without topic and difficulty,
      500 when no provider answers; in each of these nothing is stored.
      Otherwise the exchange is appended to the named transcript, whoever owns
      it, with earlier entries kept; when no transcript is named or found, a
      new one owned by the current user holds just the exchange. */
  method PostChat(db: Database, cookies: map<string, Cookie>, now: int, ai: AI.AIClient,
                  oracle: AI.Request -> AI.Reply, body: ChatBody)
    returns (r: Response<ChatReply>)
    requires db.Valid()
    modifies db`chatSessions, db`nextId
    ensures db.Valid()
    ensures var user := Sessions.GetCurrentUser(db.sessions, db.users, cookies, now);
      && (user.None? ==> r == Fail(Unauthorized, UnauthorizedMessage) && db.chatSessions == old(db.chatSessions))
      && (user.Some? && !(Given(body.topic) && Given(body.difficulty)) ==>
            r == Fail(BadRequest, TopicRequired) && db.chatSessions == old(db.chatSessions))
      && (user.Some? && Given(body.topic) && Given(body.difficulty) ==>
            var g := TutorReply(ai, body.topic.value, body.difficulty.value, body.message, oracle);
            var k := SessionIndex(old(db.chatSessions), body.sessionId);
            && (g.AllProvidersFailed? ==>
                  r == Fail(ServerError, ServerErrorMessage) && db.chatSessions == old(db.chatSessions))
            && (g.Generated? && k >= 0 ==>
                  && r == Ok(ChatReply(g.content, body.sessionId.value, g.provider))
                  && db.chatSessions == old(db.chatSessions)[k := old(db.chatSessions)[k].(
                       messages := old(db.chatSessions)[k].messages + Exchange(body.message, g.content))])
            && (g.Generated? && k == -1 ==>
                  && r == Ok(ChatReply(g.content, old(db.nextId), g.provider))
                  && db.chatSessions == old(db.chatSessions) + [ChatSession(old(db.nextId), user.value.id,
                       body.topic.value, body.difficulty.value, Exchange(body.message, g.content))]))
  {
    var user := Sessions.GetCurrentUser(db.sessions, db.users, cookies, now);
    if user.None? {
      return Fail(Unauthorized, UnauthorizedMessage);
    }
    if !Given(body.topic) || !Given(body.difficulty) {
      return Fail(BadRequest, TopicRequired);
    }
    var g := TutorReply(ai, body.topic.value, body.difficulty.value, body.message, oracle);
    r := Answer(db, user.value.id, body.topic.value, body.difficulty.value, body.message, body.sessionId, g);
  }

  /** Appending keeps the transcript's owner, so a turn sent with another
      user's session id lands in that user's transcript. */
  lemma AppendKeepsOwner(sessions: seq<ChatSession>, k: nat, entries: seq<ChatEntry>)
    requires k < |sessions|
    ensures var after := sessions[k := sessions[k].(messages := sessions[k].messages + entries)];
            && after[k].userId == sessions[k].userId
            && after[k].messages[..|sessions[k].messages|] == sessions[k].messages
            && forall i | 0 <= i < |sessions| && i != k :: after[i] == sessions[i]
  {
  }
}
