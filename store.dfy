/** The persistent tables and the request's cookie jar. Each table is a
    sequence of rows in insertion order; `Database.nextId` stands for the
    database's generator of fresh row ids. */
module Store {
  import opened Wrappers
  import Json

  type Id = nat

  type Byte = b: int | 0 <= b < 256

  datatype User = User(id: Id, firstName: string, level: string)

  datatype SessionRow = SessionRow(userId: Id, token: string, expiresAt: int)

  datatype AdminUser = AdminUser(id: Id, username: string, passwordHash: string)

  /** `details` holds the list of setting keys for 'update_settings' rows. */
  datatype AccessLogEntry = AccessLogEntry(id: Id, adminId: Option<Id>, action: string, details: seq<string>,
                                           ipAddress: Option<string>, createdAt: int)

  datatype GameScore = GameScore(id: Id, userId: Id, gameType: string, level: int, score: int,
                                 wordsCompleted: int, completedAt: int)

  datatype LevelTest = LevelTest(id: Id, userId: Id, questions: Json.Value, answers: Json.Value,
                                 result: string, score: real)

  /** One transcript entry; `role` is "user" or "assistant". */
  datatype ChatEntry = ChatEntry(role: string, content: string)

  datatype ChatSession = ChatSession(id: Id, userId: Id, topic: string, difficulty: string,
                                     messages: seq<ChatEntry>)

  datatype CurriculumDocument = CurriculumDocument(id: Id, filename: string, originalName: string,
                                                   mimeType: string, content: seq<Byte>)

  /** `description` is `None` when the column is left null. */
  datatype Curriculum = Curriculum(id: Id, title: string, topic: string, difficulty: string,
                                   description: Option<string>, content: string, source: string,
                                   documentId: Option<Id>, createdAt: int)

  datatype Setting = Setting(key: string, value: string)

  datatype Cookie = Cookie(value: string, expires: int)

  /** The unique constraint on session tokens. */
  predicate TokensUnique(rows: seq<SessionRow>) {
    forall i, j | 0 <= i < j < |rows| :: rows[i].token != rows[j].token
  }

  /** The unique constraint on admin usernames. */
  predicate UsernamesUnique(admins: seq<AdminUser>) {
    forall i, j | 0 <= i < j < |admins| :: admins[i].username != admins[j].username
  }

  /** The unique constraint on setting keys. */
  predicate KeysUnique(rows: seq<Setting>) {
    forall i, j | 0 <= i < j < |rows| :: rows[i].key != rows[j].key
  }

  /** The value of a cookie the request carries, when it is present and
      non-empty (the source's `cookieStore.get(name)?.value` followed by a
      truthiness test). */
  function CookieToken(cookies: map<string, Cookie>, name: string): (t: Option<string>)
    ensures t.Some? <==> name in cookies && cookies[name].value != ""
    ensures t.Some? ==> t.value == cookies[name].value
  {
    if name in cookies && cookies[name].value != "" then Some(cookies[name].value) else None
  }

  class Database {
    var users: seq<User>
    var sessions: seq<SessionRow>
    var adminUsers: seq<AdminUser>
    var accessLog: seq<AccessLogEntry>
    var gameScores: seq<GameScore>
    var levelTests: seq<LevelTest>
    var chatSessions: seq<ChatSession>
    var documents: seq<CurriculumDocument>
    var curricula: seq<Curriculum>
    var settings: seq<Setting>
    var nextId: nat

    /** The schema's unique constraints, and every id issued so far lies below
        `nextId`, so `nextId` is always fresh. */
    ghost predicate Valid()
      reads this
    {
      && TokensUnique(sessions)
      && UsernamesUnique(adminUsers)
      && KeysUnique(settings)
      && (forall i | 0 <= i < |users| :: users[i].id < nextId)
      && (forall i | 0 <= i < |accessLog| :: accessLog[i].id < nextId)
      && (forall i | 0 <= i < |gameScores| :: gameScores[i].id < nextId)
      && (forall i | 0 <= i < |levelTests| :: levelTests[i].id < nextId)
      && (forall i | 0 <= i < |chatSessions| :: chatSessions[i].id < nextId)
      && (forall i | 0 <= i < |documents| :: documents[i].id < nextId)
      && (forall i | 0 <= i < |curricula| :: curricula[i].id < nextId)
    }

    constructor ()
      ensures Valid()
      ensures users == [] && sessions == [] && adminUsers == [] && accessLog == []
      ensures gameScores == [] && levelTests == [] && chatSessions == []
      ensures documents == [] && curricula == [] && settings == []
    {
      users, sessions, adminUsers, accessLog := [], [], [], [];
      gameScores, levelTests, chatSessions := [], [], [];
      documents, curricula, settings := [], [], [];
      nextId := 0;
    }
  }

  /** The cookies of the current request/response. */
  class CookieJar {
    var cookies: map<string, Cookie>

    constructor (initial: map<string, Cookie>)
      ensures cookies == initial
    {
      cookies := initial;
    }
  }
}
