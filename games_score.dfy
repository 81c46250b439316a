/** Submitting a game score: a chain of guards over the request body, each
    ending the request with its own 400 error, then one inserted row. */
module GameScores {
  import opened Wrappers
  import opened Json
  import opened Store
  import opened Http
  import Sessions
  import Strings
  import JsNumber

  const Typing := "typing"
  const Speaking := "speaking"
  const MinLevel := 1
  const MaxLevel := 10

  const MissingFields := "Missing required fields"
  const InvalidGameType := "Invalid gameType. Must be \"typing\" or \"speaking\""
  const LevelOutOfRange := "Level must be between 1 and 10"
  const NegativeScore := "Score must be non-negative"

  /** The four fields the handler destructures from the body. */
  datatype ScoreBody = ScoreBody(gameType: Value, level: Value, score: Value, wordsCompleted: Value)

  /** The columns of an accepted submission. */
  datatype ScoreFields = ScoreFields(gameType: string, level: int, score: int, wordsCompleted: int)

  /** `!gameType || !level || score === undefined`: level 0 counts as
      missing, score 0 does not. */
  predicate Missing(b: ScoreBody) {
    !Truthy(b.gameType) || !Truthy(b.level) || b.score == Undefined
  }

  predicate KnownGameType(v: Value) {
    v == Str(Typing) || v == Str(Speaking)
  }

  /** `level < 1 || level > 10`: both comparisons convert the level to a
      number first, so `"0"`, `" "` and `[]` (all 0) and `"11"` are out of
      range, while a value that converts to NaN passes. */
  predicate LevelOutside(v: Value) {
    JsNumber.Less(JsNumber.ToNumber(v), MinLevel) || JsNumber.Greater(JsNumber.ToNumber(v), MaxLevel)
  }

  /** `score < 0`, after the same conversion: `"-1"` and `[-1]` are
      negative, a value that converts to NaN passes. */
  predicate ScoreBelowZero(v: Value) {
    JsNumber.Less(JsNumber.ToNumber(v), 0)
  }

  /** `wordsCompleted || 0`. */
  function WordsOrZero(v: Value): (r: Value)
    ensures Truthy(v) ==> r == v
    ensures !Truthy(v) ==> r == Num(0)
  {
    if Truthy(v) then v else Num(0)
  }

  /** The guards in the source's order; the first that fails decides the
      error. A submission that passes them all but whose level, score or
      words are not integers is refused by the database insert, which the
      handler reports as 500. */
  function CheckScore(b: ScoreBody): (r: Response<ScoreFields>)
    ensures r == Fail(BadRequest, MissingFields) <==> Missing(b)
    ensures r == Fail(BadRequest, InvalidGameType) <==> !Missing(b) && !KnownGameType(b.gameType)
    ensures r == Fail(BadRequest, LevelOutOfRange) <==>
      !Missing(b) && KnownGameType(b.gameType) && LevelOutside(b.level)
    ensures r == Fail(BadRequest, NegativeScore) <==>
      !Missing(b) && KnownGameType(b.gameType) && !LevelOutside(b.level) && ScoreBelowZero(b.score)
    ensures r.Ok? ==>
      && Str(r.body.gameType) == b.gameType
      && (r.body.gameType == Typing || r.body.gameType == Speaking)
      && b.level == Num(r.body.level) && MinLevel <= r.body.level <= MaxLevel
      && b.score == Num(r.body.score) && r.body.score >= 0
      && WordsOrZero(b.wordsCompleted) == Num(r.body.wordsCompleted)
    ensures r == Fail(ServerError, ServerErrorMessage) <==>
      && !Missing(b) && KnownGameType(b.gameType) && !LevelOutside(b.level) && !ScoreBelowZero(b.score)
      && !(b.level.Num? && b.score.Num? && WordsOrZero(b.wordsCompleted).Num?)
    ensures r.Fail? ==> r.status == BadRequest || r.status == ServerError
  {
    if Missing(b) then Fail(BadRequest, MissingFields)
    else if !KnownGameType(b.gameType) then Fail(BadRequest, InvalidGameType)
    else if LevelOutside(b.level) then Fail(BadRequest, LevelOutOfRange)
    else if ScoreBelowZero(b.score) then Fail(BadRequest, NegativeScore)
    else
      var words := WordsOrZero(b.wordsCompleted);
      if b.level.Num? && b.score.Num? && words.Num? then
        Ok(ScoreFields(b.gameType.s, b.level.n, b.score.n, words.n))
      else
        Fail(ServerError, ServerErrorMessage)
  }

  /** Every well-formed submission is accepted with exactly its own fields. */
  lemma WellFormedAccepted(gameType: string, level: int, score: int, words: Value)
    requires gameType == Typing || gameType == Speaking
    requires MinLevel <= level <= MaxLevel && score >= 0
    requires words == Undefined || words.Num?
    ensures CheckScore(ScoreBody(Str(gameType), Num(level), Num(score), words)) ==
      Ok(ScoreFields(gameType, level, score, if words.Num? then words.n else 0))
  {
  }

  /** A present level that converts to a number outside 1..10 is refused
      as out of range. */
  lemma ConvertedLevelRefused(b: ScoreBody, x: real)
    requires !Missing(b) && KnownGameType(b.gameType)
    requires JsNumber.ToNumber(b.level) == JsNumber.Finite(x) && (x < MinLevel as real || x > MaxLevel as real)
    ensures CheckScore(b) == Fail(BadRequest, LevelOutOfRange)
  {
  }

  /** Past the level check, a score that converts to a negative number is
      refused as negative. */
  lemma ConvertedScoreRefused(b: ScoreBody, x: real)
    requires !Missing(b) && KnownGameType(b.gameType) && !LevelOutside(b.level)
    requires JsNumber.ToNumber(b.score) == JsNumber.Finite(x) && x < 0.0
    ensures CheckScore(b) == Fail(BadRequest, NegativeScore)
  {
  }

  /** A level that is not a number but converts to one in 1..10 passes the
      guards and is refused by the insert. */
  lemma ConvertedLevelReachesInsert(b: ScoreBody, x: real)
    requires !Missing(b) && KnownGameType(b.gameType) && !b.level.Num?
    requires JsNumber.ToNumber(b.level) == JsNumber.Finite(x) && MinLevel as real <= x <= MaxLevel as real
    requires !ScoreBelowZero(b.score)
    ensures CheckScore(b) == Fail(ServerError, ServerErrorMessage)
  {
  }

  /** A level sent as the decimal string of an out-of-range integer, or as
      an array holding that integer, is refused as out of range, as a number
      would be. */
  lemma NumericLevelRefused(gameType: string, n: int, score: Value, words: Value)
    requires gameType == Typing || gameType == Speaking
    requires n < MinLevel || n > MaxLevel
    requires score != Undefined
    ensures CheckScore(ScoreBody(Str(gameType), Str(JsNumber.IntToString(n)), score, words)) ==
      Fail(BadRequest, LevelOutOfRange)
    ensures CheckScore(ScoreBody(Str(gameType), Arr([Num(n)]), score, words)) ==
      Fail(BadRequest, LevelOutOfRange)
  {
    JsNumber.DecimalRoundTrip(n);
    ConvertedLevelRefused(ScoreBody(Str(gameType), Str(JsNumber.IntToString(n)), score, words), n as real);
    JsNumber.SingletonArrayToNumber(n);
    ConvertedLevelRefused(ScoreBody(Str(gameType), Arr([Num(n)]), score, words), n as real);
  }

  /** A blank string level and an empty array level convert to 0, so they
      are out of range rather than missing. */
  lemma BlankLevelRefused(gameType: string, blank: string, score: Value, words: Value)
    requires gameType == Typing || gameType == Speaking
    requires blank != [] && Strings.AllWhitespace(blank)
    requires score != Undefined
    ensures CheckScore(ScoreBody(Str(gameType), Str(blank), score, words)) == Fail(BadRequest, LevelOutOfRange)
    ensures CheckScore(ScoreBody(Str(gameType), Arr([]), score, words)) == Fail(BadRequest, LevelOutOfRange)
  {
    JsNumber.BlankToZero(blank);
    ConvertedLevelRefused(ScoreBody(Str(gameType), Str(blank), score, words), 0.0);
    ConvertedLevelRefused(ScoreBody(Str(gameType), Arr([]), score, words), 0.0);
  }

  /** A negative score sent as a decimal string or a one-element array is
      refused as negative. */
  lemma NumericScoreRefused(gameType: string, level: int, k: int, words: Value)
    requires gameType == Typing || gameType == Speaking
    requires MinLevel <= level <= MaxLevel && k < 0
    ensures CheckScore(ScoreBody(Str(gameType), Num(level), Str(JsNumber.IntToString(k)), words)) ==
      Fail(BadRequest, NegativeScore)
    ensures CheckScore(ScoreBody(Str(gameType), Num(level), Arr([Num(k)]), words)) ==
      Fail(BadRequest, NegativeScore)
  {
    JsNumber.DecimalRoundTrip(k);
    ConvertedScoreRefused(ScoreBody(Str(gameType), Num(level), Str(JsNumber.IntToString(k)), words), k as real);
    JsNumber.SingletonArrayToNumber(k);
    ConvertedScoreRefused(ScoreBody(Str(gameType), Num(level), Arr([Num(k)]), words), k as real);
  }

  /** An in-range level sent as a string passes every guard, and the insert
      then refuses it: 500. */
  lemma StringLevelReachesInsert(gameType: string, n: int, score: int, words: Value)
    requires gameType == Typing || gameType == Speaking
    requires MinLevel <= n <= MaxLevel && score >= 0
    ensures CheckScore(ScoreBody(Str(gameType), Str(JsNumber.IntToString(n)), Num(score), words)) ==
      Fail(ServerError, ServerErrorMessage)
  {
    JsNumber.DecimalRoundTrip(n);
    ConvertedLevelReachesInsert(ScoreBody(Str(gameType), Str(JsNumber.IntToString(n)), Num(score), words), n as real);
  }

  /** The insert of an accepted submission for `userId`. */
  method SaveScore(db: Database, userId: Id, f: ScoreFields, now: int) returns (row: GameScore)
    requires db.Valid()
    modifies db`gameScores, db`nextId
    ensures db.Valid()
    ensures row == GameScore(old(db.nextId), userId, f.gameType, f.level, f.score, f.wordsCompleted, now)
    ensures db.gameScores == old(db.gameScores) + [row]
  {
    row := GameScore(db.nextId, userId, f.gameType, f.level, f.score, f.wordsCompleted, now);
    db.gameScores := db.gameScores + [row];
    db.nextId := db.nextId + 1;
  }

  /** `POST /api/games/score`: 401 without a current user, before the body
      is looked at; a refused submission stores nothing; an accepted one
      appends exactly one row for the current user and returns it. */
  method PostScore(db: Database, cookies: map<string, Cookie>, now: int, body: ScoreBody)
    returns (r: Response<GameScore>)
    requires db.Valid()
    modifies db`gameScores, db`nextId
    ensures db.Valid()
    ensures var user := Sessions.GetCurrentUser(db.sessions, db.users, cookies, now);
      var check := CheckScore(body);
      && (user.None? ==> r == Fail(Unauthorized, UnauthorizedMessage) && db.gameScores == old(db.gameScores))
      && (user.Some? && check.Fail? ==>
            r == Fail(check.status, check.error) && db.gameScores == old(db.gameScores))
      && (user.Some? && check.Ok? ==>
            && r == Ok(GameScore(old(db.nextId), user.value.id, check.body.gameType, check.body.level,
                                 check.body.score, check.body.wordsCompleted, now))
            && db.gameScores == old(db.gameScores) + [r.body])
  {
    var user := Sessions.GetCurrentUser(db.sessions, db.users, cookies, now);
    if user.None? {
      return Fail(Unauthorized, UnauthorizedMessage);
    }
    var check := CheckScore(body);
    if check.Fail? {
      return Fail(check.status, check.error);
    }
    var row := SaveScore(db, user.value.id, check.body, now);
    r := Ok(row);
  }
}
