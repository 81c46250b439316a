/** The next level a player should play: derived from the player's most
    recent score for the game. */
module GameProgress {
  import opened Wrappers
  import opened Store
  import opened Http
  import Tables
  import Sessions

  const DefaultGameType := "typing"
  const FirstLevel := 1
  const LastLevel := 10

  /** Each level has five words. */
  const WordsForLevel := 5

  const MissingGameType := "Missing gameType parameter"

  /** `searchParams.get('gameType') || 'typing'`: never empty, so the
      handler's 'Missing gameType parameter' branch is unreachable. */
  function GameTypeParam(param: Option<string>): (r: string)
    ensures r != ""
    ensures param.Some? && param.value != "" ==> r == param.value
    ensures param.None? || param.value == "" ==> r == DefaultGameType
  {
    if param.Some? && param.value != "" then param.value else DefaultGameType
  }

  function CompletedAt(s: GameScore): int {
    s.completedAt
  }

  /** The user's row for the game with the greatest completion time. */
  function LatestScore(scores: seq<GameScore>, userId: Id, gameType: string): (r: Option<GameScore>)
    ensures r.None? <==> forall i | 0 <= i < |scores| :: !(scores[i].userId == userId && scores[i].gameType == gameType)
    ensures r.Some? ==> r.value in scores && r.value.userId == userId && r.value.gameType == gameType
    ensures r.Some? ==> forall i | 0 <= i < |scores| ::
      scores[i].userId == userId && scores[i].gameType == gameType ==> scores[i].completedAt <= r.value.completedAt
  {
    Tables.Latest(scores, (s: GameScore) => s.userId == userId && s.gameType == gameType, CompletedAt)
  }

  /** Level 1 without a previous score; one level up (capped at 10) once the
      latest round completed all five words; otherwise the same level. */
  function NextLevel(latest: Option<GameScore>): (r: int)
    ensures latest.None? ==> r == FirstLevel
    ensures latest.Some? && latest.value.wordsCompleted >= WordsForLevel ==>
      r == if latest.value.level + 1 < LastLevel then latest.value.level + 1 else LastLevel
    ensures latest.Some? && latest.value.wordsCompleted < WordsForLevel ==> r == latest.value.level
  {
    match latest
    case None => FirstLevel
    case Some(s) =>
      if s.wordsCompleted >= WordsForLevel then
        if s.level + 1 < LastLevel then s.level + 1 else LastLevel
      else s.level
  }

  /** From a stored level in 1..10 the next level stays in 1..10, never goes
      down and rises by at most one. */
  lemma NextLevelBounds(latest: GameScore)
    requires FirstLevel <= latest.level <= LastLevel
    ensures FirstLevel <= NextLevel(Some(latest)) <= LastLevel
    ensures latest.level <= NextLevel(Some(latest)) <= latest.level + 1
    ensures NextLevel(Some(latest)) == latest.level <==> latest.wordsCompleted < WordsForLevel || latest.level == LastLevel
  {
  }

  /** Every level the handler can return from a table the score route
      filled lies in 1..10. */
  lemma {:induction false} ProgressInRange(scores: seq<GameScore>, userId: Id, gameType: string)
    requires forall i | 0 <= i < |scores| :: FirstLevel <= scores[i].level <= LastLevel
    ensures FirstLevel <= NextLevel(LatestScore(scores, userId, gameType)) <= LastLevel
  {
    var latest := LatestScore(scores, userId, gameType);
    if latest.Some? {
      var k :| 0 <= k < |scores| && scores[k] == latest.value;
      NextLevelBounds(latest.value);
    }
  }

  /** `GET /api/games/progress`: 401 without a current user, otherwise the
      next level for the requested game. */
  function GetProgress(sessions: seq<SessionRow>, users: seq<User>, cookies: map<string, Cookie>, now: int,
                       scores: seq<GameScore>, param: Option<string>): (r: Response<int>)
    ensures Sessions.GetCurrentUser(sessions, users, cookies, now).None? <==> r == Fail(Unauthorized, UnauthorizedMessage)
    ensures r.Fail? ==> r.status == Unauthorized
    ensures r.Ok? ==> r.body == NextLevel(LatestScore(scores, Sessions.GetCurrentUser(sessions, users, cookies, now).value.id, GameTypeParam(param)))
  {
    match Sessions.GetCurrentUser(sessions, users, cookies, now)
    case None => Fail(Unauthorized, UnauthorizedMessage)
    case Some(user) =>
      var gameType := GameTypeParam(param);
      if gameType == "" then Fail(BadRequest, MissingGameType)
      else Ok(NextLevel(LatestScore(scores, user.id, gameType)))
  }
}
