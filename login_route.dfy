/** `POST /api/auth/login`: find or create the user with the given first
    name, then open a session for that user. */
module LoginRoute {
  import opened Wrappers
  import opened Json
  import opened Store
  import opened Http
  import Strings
  import Tables
  import Sessions

  const NameRequired := "First name is required"
  const InitialLevel := "Beginner"

  datatype LoginReply = LoginReply(id: Id, firstName: string, level: string)

  /** The trimmed name, unless the field is missing, not a string or only
      whitespace. */
  function NameOf(firstName: Value): (r: Option<string>)
    ensures r.Some? <==> firstName.Str? && !Strings.AllWhitespace(firstName.s)
    ensures r.Some? ==> r.value == Strings.Trim(firstName.s) && r.value != ""
  {
    if !Truthy(firstName) || !firstName.Str? then None
    else
      Strings.TrimEmptyIff(firstName.s);
      if |Strings.Trim(firstName.s)| == 0 then None else Some(Strings.Trim(firstName.s))
  }

  /** The first user with that first name, or a new 'Beginner' user with the
      next id appended to the table. */
  function FindOrCreate(users: seq<User>, name: string, nextId: Id): (r: (seq<User>, User))
    ensures r.1 in r.0 && r.1.firstName == name
    ensures (exists u | u in users :: u.firstName == name) ==> r.0 == users && r.1 in users
    ensures (forall u | u in users :: u.firstName != name) ==> r.0 == users + [User(nextId, name, InitialLevel)] && r.1 == User(nextId, name, InitialLevel)
  {
    match Tables.FindFirst(users, (u: User) => u.firstName == name)
    case Some(u) => (users, u)
    case None => (users + [User(nextId, name, InitialLevel)], User(nextId, name, InitialLevel))
  }

  /** Logging in twice with the same name resolves to the same user and
      creates no second one. */
  lemma FindOrCreateIdempotent(users: seq<User>, name: string, nextId: Id, laterId: Id)
    ensures var (once, u) := FindOrCreate(users, name, nextId);
            FindOrCreate(once, name, laterId) == (once, u)
  {
    var (once, u) := FindOrCreate(users, name, nextId);
    var p := (v: User) => v.firstName == name;
    if Tables.FindFirst(users, p).None? {
      Tables.FindFirstAppended(users, p, User(nextId, name, InitialLevel));
    } else {
      var k := Tables.IndexOf(users, p);
      assert Tables.FindFirst(users, p) == Some(users[k]);
      assert Tables.FindFirst(once, p) == Some(users[k]);
    }
  }

  /** The handler. `token` is the random session token the session module
      draws. A rejected name changes nothing; otherwise the user table is
      the find-or-create result and one session for that user is added. */
  method PostLogin(db: Database, jar: CookieJar, firstName: Value, token: string, now: int)
    returns (r: Response<LoginReply>)
    requires db.Valid()
    requires |token| == Sessions.TokenLength
    requires forall s | s in db.sessions :: s.token != token
    modifies db`users, db`nextId, db`sessions, jar`cookies
    ensures db.Valid()
    ensures NameOf(firstName).None? ==>
      && r == Fail(BadRequest, NameRequired)
      && db.users == old(db.users) && db.sessions == old(db.sessions) && jar.cookies == old(jar.cookies)
    ensures NameOf(firstName).Some? ==>
      var (users, user) := FindOrCreate(old(db.users), NameOf(firstName).value, old(db.nextId));
      && db.users == users
      && r == Ok(LoginReply(user.id, user.firstName, user.level))
      && db.sessions == old(db.sessions) + [SessionRow(user.id, token, now + Sessions.SessionDuration)]
      && jar.cookies == old(jar.cookies)[Sessions.CookieName := Cookie(token, now + Sessions.SessionDuration)]
  {
    var name := NameOf(firstName);
    if name.None? {
      return Fail(BadRequest, NameRequired);
    }
    var found := Tables.FindFirst(db.users, (u: User) => u.firstName == name.value);
    var user: User;
    if found.Some? {
      user := found.value;
    } else {
      user := User(db.nextId, name.value, InitialLevel);
      db.users := db.users + [user];
      db.nextId := db.nextId + 1;
    }
    var _ := Sessions.CreateSession(db, jar, user.id, token, now);
    r := Ok(LoginReply(user.id, user.firstName, user.level));
  }
}
