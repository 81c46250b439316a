/** User sessions: a token table with an expiry time, and the
    `session_token` cookie that carries the token. Time is an integer number
    of milliseconds. */
module Sessions {
  import opened Wrappers
  import opened Store
  import Tables

  /** Seven days in milliseconds. */
  const SessionDuration := 7 * 24 * 60 * 60 * 1000

  const CookieName := "session_token"

  /** A token is the hex encoding of 32 random bytes. */
  const TokenLength := 64

  datatype SessionInfo = SessionInfo(userId: Id, token: string)

  /** The token row lookup by the unique `token` column. */
  function RowFor(sessions: seq<SessionRow>, token: string): (r: Option<SessionRow>)
    ensures r.None? <==> forall i | 0 <= i < |sessions| :: sessions[i].token != token
    ensures r.Some? ==> r.value in sessions && r.value.token == token
  {
    Tables.FindFirst(sessions, (s: SessionRow) => s.token == token)
  }

  /** The session the request's cookie names, unless the cookie is absent,
      no row carries its token, or the row expired before `now` (a session is
      still valid at exactly its expiry time). */
  function GetSession(sessions: seq<SessionRow>, cookies: map<string, Cookie>, now: int): (r: Option<SessionInfo>)
    ensures CookieToken(cookies, CookieName).None? ==> r.None?
    ensures r.Some? ==>
      && CookieToken(cookies, CookieName) == Some(r.value.token)
      && exists s | s in sessions :: s.token == r.value.token && s.userId == r.value.userId && now <= s.expiresAt
  {
    match CookieToken(cookies, CookieName)
    case None => None
    case Some(token) =>
      match RowFor(sessions, token)
      case None => None
      case Some(row) => if row.expiresAt < now then None else Some(SessionInfo(row.userId, row.token))
  }

  /** With unique tokens, a cookie resolves exactly when some row carries its
      token and has not expired, and then to that row's user. */
  lemma GetSessionResolves(sessions: seq<SessionRow>, cookies: map<string, Cookie>, now: int, i: nat)
    requires TokensUnique(sessions)
    requires i < |sessions|
    requires CookieToken(cookies, CookieName) == Some(sessions[i].token)
    ensures now <= sessions[i].expiresAt ==> GetSession(sessions, cookies, now) == Some(SessionInfo(sessions[i].userId, sessions[i].token))
    ensures sessions[i].expiresAt < now ==> GetSession(sessions, cookies, now).None?
  {
    var row := RowFor(sessions, sessions[i].token);
    assert row.Some?;
    var j :| 0 <= j < |sessions| && sessions[j] == row.value;
    assert sessions[j].token == sessions[i].token;
  }

  /** The user of the current session, looked up by id; absent without a
      valid session. */
  function GetCurrentUser(sessions: seq<SessionRow>, users: seq<User>, cookies: map<string, Cookie>, now: int): (r: Option<User>)
    ensures GetSession(sessions, cookies, now).None? ==> r.None?
    ensures r.Some? ==> r.value in users && r.value.id == GetSession(sessions, cookies, now).value.userId
    ensures GetSession(sessions, cookies, now).Some? && r.None? ==>
      forall u | u in users :: u.id != GetSession(sessions, cookies, now).value.userId
  {
    match GetSession(sessions, cookies, now)
    case None => None
    case Some(info) => Tables.FindFirst(users, (u: User) => u.id == info.userId)
  }

  /** The session table without the rows carrying `token`. */
  function WithoutToken(sessions: seq<SessionRow>, token: string): (r: seq<SessionRow>)
    ensures forall s | s in r :: s.token != token
    ensures forall s | s in sessions && s.token != token :: s in r
    ensures forall s | s in r :: s in sessions
    ensures |r| <= |sessions|
  {
    if sessions == [] then []
    else
      var rest := WithoutToken(sessions[..|sessions| - 1], token);
      var last := sessions[|sessions| - 1];
      assert sessions == sessions[..|sessions| - 1] + [last];
      if last.token == token then rest else rest + [last]
  }

  /** Deleting rows keeps the remaining tokens unique. */
  lemma {:induction false} WithoutTokenUnique(sessions: seq<SessionRow>, token: string)
    requires TokensUnique(sessions)
    ensures TokensUnique(WithoutToken(sessions, token))
  {
    if sessions != [] {
      var init := sessions[..|sessions| - 1];
      var last := sessions[|sessions| - 1];
      assert TokensUnique(init);
      WithoutTokenUnique(init, token);
      var rest := WithoutToken(init, token);
      forall s | s in rest
        ensures s.token != last.token
      {
        var k :| 0 <= k < |init| && init[k] == s;
        assert sessions[k] == s;
      }
    }
  }

  /** A deleted token resolves to no session, whatever cookie later carries it. */
  lemma DeletedTokenUnresolvable(sessions: seq<SessionRow>, token: string, cookies: map<string, Cookie>, now: int)
    requires CookieToken(cookies, CookieName) == Some(token)
    ensures GetSession(WithoutToken(sessions, token), cookies, now).None?
  {
  }

  /** A freshly created session resolves to its user until its expiry time
      and not after it. */
  lemma {:induction false} NewSessionResolves(sessions: seq<SessionRow>, cookies: map<string, Cookie>,
                                              userId: Id, token: string, now: int, t: int)
    requires TokensUnique(sessions)
    requires token != ""
    requires forall s | s in sessions :: s.token != token
    ensures var after := sessions + [SessionRow(userId, token, now + SessionDuration)];
            var jar := cookies[CookieName := Cookie(token, now + SessionDuration)];
            && (t <= now + SessionDuration ==> GetSession(after, jar, t) == Some(SessionInfo(userId, token)))
            && (now + SessionDuration < t ==> GetSession(after, jar, t).None?)
  {
    var after := sessions + [SessionRow(userId, token, now + SessionDuration)];
    var jar := cookies[CookieName := Cookie(token, now + SessionDuration)];
    assert TokensUnique(after) by {
      forall i, j | 0 <= i < j < |after|
        ensures after[i].token != after[j].token
      {
        if j == |sessions| {
          assert after[i] in sessions;
        } else {
          assert after[i] == sessions[i] && after[j] == sessions[j];
        }
      }
    }
    GetSessionResolves(after, jar, t, |sessions|);
  }

  /** `createSession`: stores a row for `userId` with the token and an expiry
      seven days ahead, sets the cookie to the same token and expiry, and
      returns the token. The token is the random value the source draws. */
  method CreateSession(db: Database, jar: CookieJar, userId: Id, token: string, now: int) returns (r: string)
    requires db.Valid()
    requires |token| == TokenLength
    requires forall s | s in db.sessions :: s.token != token
    modifies db`sessions, jar`cookies
    ensures db.Valid()
    ensures r == token
    ensures db.sessions == old(db.sessions) + [SessionRow(userId, token, now + SessionDuration)]
    ensures jar.cookies == old(jar.cookies)[CookieName := Cookie(token, now + SessionDuration)]
  {
    var expiresAt := now + SessionDuration;
    ghost var before := db.sessions;
    db.sessions := db.sessions + [SessionRow(userId, token, expiresAt)];
    assert TokensUnique(db.sessions) by {
      forall i, j | 0 <= i < j < |db.sessions|
        ensures db.sessions[i].token != db.sessions[j].token
      {
        if j == |before| {
          assert db.sessions[i] in before;
        } else {
          assert db.sessions[i] == before[i] && db.sessions[j] == before[j];
        }
      }
    }
    jar.cookies := jar.cookies[CookieName := Cookie(token, expiresAt)];
    r := token;
  }

  /** `deleteSession`: removes every row carrying `token` and the cookie. */
  method DeleteSession(db: Database, jar: CookieJar, token: string)
    requires db.Valid()
    modifies db`sessions, jar`cookies
    ensures db.Valid()
    ensures db.sessions == WithoutToken(old(db.sessions), token)
    ensures jar.cookies == old(jar.cookies) - {CookieName}
  {
    WithoutTokenUnique(db.sessions, token);
    db.sessions := WithoutToken(db.sessions, token);
    jar.cookies := jar.cookies - {CookieName};
  }
}
