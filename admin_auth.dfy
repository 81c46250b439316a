/** Admin authentication. An admin "session" is only the
    `admin_session_token` cookie plus the append-only access log: the latest
    'login' row of the last 24 hours names the admin, whatever token the
    cookie carries. */
module AdminAuth {
  import opened Wrappers
  import opened Store
  import Tables

  /** Twenty-four hours in milliseconds. */
  const AdminSessionDuration := 24 * 60 * 60 * 1000

  const CookieName := "admin_session_token"

  const LoginAction := "login"

  /** The address recorded for every login row. */
  const UnknownAddress := "unknown"

  datatype AdminSessionInfo = AdminSessionInfo(adminId: Id, token: string)

  /** A 'login' row created no earlier than 24 hours before `now`. */
  predicate RecentLogin(now: int, e: AccessLogEntry) {
    e.action == LoginAction && e.createdAt >= now - AdminSessionDuration
  }

  function CreatedAt(e: AccessLogEntry): int {
    e.createdAt
  }

  /** The most recent recent-login row (`findFirst` ordered by createdAt
      descending); among rows with equal times the later one is taken. */
  function LatestLogin(log: seq<AccessLogEntry>, now: int): (r: Option<AccessLogEntry>)
    ensures r.None? <==> forall i | 0 <= i < |log| :: !RecentLogin(now, log[i])
    ensures r.Some? ==> r.value in log && RecentLogin(now, r.value)
    ensures r.Some? ==> forall i | 0 <= i < |log| :: RecentLogin(now, log[i]) ==> log[i].createdAt <= r.value.createdAt
  {
    Tables.Latest(log, e => RecentLogin(now, e), CreatedAt)
  }

  /** `getAdminSession`: absent without a non-empty cookie, without a recent
      login row, or when that row has no admin; otherwise that row's admin
      together with the cookie's token. */
  function GetAdminSession(log: seq<AccessLogEntry>, cookies: map<string, Cookie>, now: int): (r: Option<AdminSessionInfo>)
    ensures CookieToken(cookies, CookieName).None? ==> r.None?
    ensures (forall i | 0 <= i < |log| :: !RecentLogin(now, log[i])) ==> r.None?
    ensures r.Some? ==>
      && CookieToken(cookies, CookieName) == Some(r.value.token)
      && exists e | e in log :: RecentLogin(now, e) && e.adminId == Some(r.value.adminId)
    ensures r.Some? ==> LatestLogin(log, now).Some? && LatestLogin(log, now).value.adminId == Some(r.value.adminId)
    ensures CookieToken(cookies, CookieName).Some? && LatestLogin(log, now).Some? ==>
      (r.None? <==> LatestLogin(log, now).value.adminId.None?)
  {
    match CookieToken(cookies, CookieName)
    case None => None
    case Some(token) =>
      match LatestLogin(log, now)
      case None => None
      case Some(entry) =>
        match entry.adminId
        case None => None
        case Some(adminId) => Some(AdminSessionInfo(adminId, token))
  }

  /** The token is never compared: any two non-empty cookies resolve to the
      same admin, so a guessed cookie value works as well as the real one. */
  lemma AnyTokenResolves(log: seq<AccessLogEntry>, c1: map<string, Cookie>, c2: map<string, Cookie>, now: int)
    requires CookieToken(c1, CookieName).Some? && CookieToken(c2, CookieName).Some?
    ensures GetAdminSession(log, c1, now).None? <==> GetAdminSession(log, c2, now).None?
    ensures GetAdminSession(log, c1, now).Some? ==>
      GetAdminSession(log, c1, now).value.adminId == GetAdminSession(log, c2, now).value.adminId
  {
  }

  /** `getCurrentAdmin`: absent iff there is no admin session; otherwise the
      lookup of the session's admin id. */
  function GetCurrentAdmin(admins: seq<AdminUser>, log: seq<AccessLogEntry>, cookies: map<string, Cookie>, now: int): (r: Option<AdminUser>)
    ensures GetAdminSession(log, cookies, now).None? ==> r.None?
    ensures r.Some? ==> r.value in admins && r.value.id == GetAdminSession(log, cookies, now).value.adminId
    ensures GetAdminSession(log, cookies, now).Some? && r.None? ==>
      forall a | a in admins :: a.id != GetAdminSession(log, cookies, now).value.adminId
  {
    match GetAdminSession(log, cookies, now)
    case None => None
    case Some(info) => Tables.FindFirst(admins, (a: AdminUser) => a.id == info.adminId)
  }

  datatype PasswordCheck = Rejected | Verified(adminId: Id)

  /** `verifyAdminPassword`: the admin with that username, when there is
      one and `matches(password, hash)` holds of its stored hash. The bcrypt
      comparison is the parameter `matches`. */
  function VerifyAdminPassword(admins: seq<AdminUser>, username: string, password: string,
                               matches: (string, string) -> bool): (r: PasswordCheck)
    ensures (forall a | a in admins :: a.username != username) ==> r == Rejected
    ensures r.Verified? ==> exists a | a in admins :: a.username == username && a.id == r.adminId && matches(password, a.passwordHash)
  {
    match Tables.FindFirst(admins, (a: AdminUser) => a.username == username)
    case None => Rejected
    case Some(admin) => if matches(password, admin.passwordHash) then Verified(admin.id) else Rejected
  }

  /** With unique usernames, the check succeeds exactly for the password the
      named admin's hash matches. */
  lemma VerifyAdminPasswordIff(admins: seq<AdminUser>, i: nat, password: string, matches: (string, string) -> bool)
    requires UsernamesUnique(admins)
    requires i < |admins|
    ensures VerifyAdminPassword(admins, admins[i].username, password, matches) ==
      (if matches(password, admins[i].passwordHash) then Verified(admins[i].id) else Rejected)
  {
    var found := Tables.FindFirst(admins, (a: AdminUser) => a.username == admins[i].username);
    assert found.Some?;
    var j :| 0 <= j < |admins| && admins[j] == found.value;
    assert admins[j].username == admins[i].username;
  }

  /** A login row just appended, created after every earlier login row, is
      the latest recent login for the next 24 hours, so the session then
      names that admin. */
  lemma AdminLoginResolves(log: seq<AccessLogEntry>, cookies: map<string, Cookie>, entry: AccessLogEntry, t: int)
    requires entry.action == LoginAction && entry.adminId.Some?
    requires forall i | 0 <= i < |log| && log[i].action == LoginAction :: log[i].createdAt < entry.createdAt
    requires entry.createdAt <= t <= entry.createdAt + AdminSessionDuration
    requires CookieToken(cookies, CookieName).Some?
    ensures GetAdminSession(log + [entry], cookies, t) ==
      Some(AdminSessionInfo(entry.adminId.value, CookieToken(cookies, CookieName).value))
  {
    Tables.LatestAppended(log, e => RecentLogin(t, e), CreatedAt, entry);
  }

  /** `prisma.adminAccessLog.create`: one row for `adminId` with the next
      id. */
  method RecordAction(db: Database, adminId: Id, action: string, details: seq<string>, ipAddress: Option<string>,
                      now: int)
    requires db.Valid()
    modifies db`accessLog, db`nextId
    ensures db.Valid()
    ensures db.accessLog == old(db.accessLog) + [AccessLogEntry(old(db.nextId), Some(adminId), action, details, ipAddress, now)]
    ensures db.nextId == old(db.nextId) + 1
  {
    db.accessLog := db.accessLog + [AccessLogEntry(db.nextId, Some(adminId), action, details, ipAddress, now)];
    db.nextId := db.nextId + 1;
  }

  /** `createAdminSession`: sets the cookie to the token with a 24-hour
      expiry and appends one 'login' row for the admin; no session row is
      stored. The token is the random value the source draws. */
  method CreateAdminSession(db: Database, jar: CookieJar, adminId: Id, token: string, now: int) returns (r: string)
    requires db.Valid()
    modifies db`accessLog, db`nextId, jar`cookies
    ensures db.Valid()
    ensures r == token
    ensures jar.cookies == old(jar.cookies)[CookieName := Cookie(token, now + AdminSessionDuration)]
    ensures db.accessLog == old(db.accessLog) + [AccessLogEntry(old(db.nextId), Some(adminId), LoginAction, [], Some(UnknownAddress), now)]
    ensures db.nextId == old(db.nextId) + 1
  {
    jar.cookies := jar.cookies[CookieName := Cookie(token, now + AdminSessionDuration)];
    RecordAction(db, adminId, LoginAction, [], Some(UnknownAddress), now);
    r := token;
  }

  /** `deleteAdminSession`: removes only the cookie. */
  method DeleteAdminSession(jar: CookieJar)
    modifies jar`cookies
    ensures jar.cookies == old(jar.cookies) - {CookieName}
  {
    jar.cookies := jar.cookies - {CookieName};
  }
}
