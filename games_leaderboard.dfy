/** The public leaderboard: the twenty best score rows, by level and then
    by score, each shown with its player's first name. */
module Leaderboard {
  import opened Wrappers
  import opened Store
  import opened Http
  import Tables

  const Size := 20

  datatype Entry = Entry(firstName: string, gameType: string, level: int, score: int)

  /** The ordering key: level first, then score, both descending. */
  function Rank(s: GameScore): (int, int) {
    (s.level, s.score)
  }

  /** The rows the query returns: the first twenty of the table in rank
      order. */
  function Top(scores: seq<GameScore>): (r: seq<GameScore>)
    ensures |r| <= Size
    ensures |r| == if |scores| < Size then |scores| else Size
    ensures Tables.SortedDesc(r, Rank)
    ensures multiset(r) <= multiset(scores)
  {
    var sorted := Tables.SortDesc(scores, Rank);
    var n := if |sorted| < Size then |sorted| else Size;
    assert sorted == sorted[..n] + sorted[n..];
    assert multiset(sorted[..n]) <= multiset(sorted) by {
      assert multiset(sorted) == multiset(sorted[..n]) + multiset(sorted[n..]);
    }
    sorted[..n]
  }

  /** The rows left out of the leaderboard. */
  function Omitted(scores: seq<GameScore>): (r: multiset<GameScore>)
    ensures multiset(Top(scores)) + r == multiset(scores)
  {
    var sorted := Tables.SortDesc(scores, Rank);
    var n := if |sorted| < Size then |sorted| else Size;
    assert sorted == sorted[..n] + sorted[n..];
    multiset(sorted[n..])
  }

  /** No omitted row ranks strictly above a row on the leaderboard, and rows
      are omitted only once the board is full. */
  lemma {:induction false} NothingOmittedRanksAbove(scores: seq<GameScore>, x: GameScore, y: GameScore)
    requires x in Omitted(scores) && y in Top(scores)
    ensures !Tables.Above(Rank(x), Rank(y))
    ensures |Top(scores)| == Size
  {
    var sorted := Tables.SortDesc(scores, Rank);
    var n := if |sorted| < Size then |sorted| else Size;
    assert x in sorted[n..];
    var i :| 0 <= i < |sorted[n..]| && sorted[n..][i] == x;
    var j :| 0 <= j < n && sorted[..n][j] == y;
    assert sorted[j] == y && sorted[n + i] == x;
  }

  /** The entry for one row: its player's first name (absent when the row's
      user is missing) and the row's game, level and score. */
  function Project(users: seq<User>, s: GameScore): (r: Option<Entry>)
    ensures r.Some? ==> r.value.gameType == s.gameType && r.value.level == s.level && r.value.score == s.score
    ensures r.Some? ==> exists u | u in users :: u.id == s.userId && u.firstName == r.value.firstName
    ensures r.None? <==> forall u | u in users :: u.id != s.userId
  {
    match Tables.FindFirst(users, (u: User) => u.id == s.userId)
    case None => None
    case Some(u) => Some(Entry(u.firstName, s.gameType, s.level, s.score))
  }

  /** `scores.map(...)`: the entries in row order, or absent when some row's
      user is missing (reading `score.user.firstName` then throws). */
  function Entries(users: seq<User>, rows: seq<GameScore>): (r: Option<seq<Entry>>)
    ensures r.Some? ==> |r.value| == |rows|
    ensures r.Some? ==> forall i | 0 <= i < |rows| :: Project(users, rows[i]) == Some(r.value[i])
    ensures r.None? <==> exists i | 0 <= i < |rows| :: Project(users, rows[i]).None?
  {
    if rows == [] then Some([])
    else
      match Project(users, rows[0])
      case None => None
      case Some(e) =>
        match Entries(users, rows[1..])
        case None =>
          var k :| 0 <= k < |rows[1..]| && Project(users, rows[1..][k]).None?;
          assert Project(users, rows[k + 1]).None?;
          None
        case Some(es) => Some([e] + es)
  }

  /** `GET /api/games/leaderboard`: no authentication; the entries of the
      top twenty rows, in rank order. */
  function GetLeaderboard(users: seq<User>, scores: seq<GameScore>): (r: Response<seq<Entry>>)
    ensures r.Ok? ==> |r.body| == |Top(scores)| <= Size
    ensures r.Ok? ==> forall i | 0 <= i < |r.body| :: Project(users, Top(scores)[i]) == Some(r.body[i])
    ensures r.Ok? ==> forall i, j | 0 <= i < j < |r.body| :: !Tables.Above((r.body[j].level, r.body[j].score), (r.body[i].level, r.body[i].score))
    ensures r.Fail? <==> exists i | 0 <= i < |Top(scores)| :: Project(users, Top(scores)[i]).None?
    ensures r.Fail? ==> r == Fail(ServerError, ServerErrorMessage)
  {
    var top := Top(scores);
    match Entries(users, top)
    case None => Fail(ServerError, ServerErrorMessage)
    case Some(es) =>
      assert forall i | 0 <= i < |es| :: (es[i].level, es[i].score) == Rank(top[i]);
      Ok(es)
  }
}
