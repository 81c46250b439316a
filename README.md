# krlangclass core, modelled in Dafny

This project models the server core of krlangclass, a Korean-learning web
application:

- **The multi-provider AI client** (`lib/ai/client.ts`).
  - It tries OpenAI, then Gemini, then Claude, and returns the first
    non-empty reply tagged with its provider.
  - It also has a streaming mode that falls back to that cascade.
  - A lazily created singleton serves every caller.
- **Sessions** (`lib/auth/session.ts`). User sessions are a token table with
  a seven-day expiry and a `session_token` cookie.
- **Admin authentication** (`lib/auth/admin.ts`).
  - An admin "session" is only the most recent 'login' row of the access
    log within 24 hours.
  - The cookie's token is never compared with anything.
- **The responsive breakpoint helpers** (`lib/utils/responsive.ts`).
- **The route handlers**:
  - name login;
  - game score submission, game progress and the public leaderboard;
  - the AI tutoring chat;
  - the AI level test;
  - curriculum upload and listing;
  - AI curriculum generation;
  - the admin key/value settings.

Each core file is one module. Pure code becomes datatypes, functions and
lemmas. Code that changes state becomes methods:

- The database is `Store.Database`, a class with one sequence field per
  table, plus `nextId`, which stands for the database's id generator.
- The cookie store is `Store.CookieJar`.
- The handlers that write change exactly the fields their `modifies`
  clauses name. Their `ensures` give the new tables in terms of the old
  ones.

Three helper modules model the JavaScript semantics the handlers rely on:

- `Json`: request bodies and their truthiness;
- `Strings`: `trim()` and `substring`;
- `JsNumber`: the number conversion that `<` and `>` apply to a request
  field (ToNumber, section 7.1.4 of ECMA-262), including numeric strings
  and arrays.

Everything outside the code's reach is a parameter:

- **The provider SDKs** are one oracle, a total function from the request
  the client sends to the reply it gets back (`AI.Request -> AI.Reply`).
  A stream is its finite sequence of deltas, ending in completion or a
  throw.
- **The clock** is `now`, and random tokens are parameters.
- **Library calls** are parameters too: `JSON.parse` (`parse`),
  `JSON.stringify` (`stringify`), `parseDocument` (`parseDoc`) and bcrypt's
  compare (`matches`).

Handlers authenticate themselves, with `Sessions.GetCurrentUser` or
`AdminAuth.GetCurrentAdmin` applied to the tables and the request's cookies.
Any exception the handlers' `try` blocks catch becomes the 500 response.
In the model a 500 has one of these causes:

- every AI provider fails (chat, level test, curriculum upload and
  generation);
- the uploaded document cannot be parsed (curriculum upload);
- the score insert refuses a level, score or word count that is not an
  integer (`GameScores.CheckScore`);
- a leaderboard score row has no owning user (`Leaderboard.GetLeaderboard`);
- the undefined `refreshApiKeys` call throws (`SettingsRoute.PostSettingsAsWritten`).

Two facts about `lib/ai/client.ts` shape the model:

- **Keys are read once.** The client reads the three environment keys once,
  in its constructor. It has no method that re-reads credentials.
- **The stream fallback.** When OpenAI is absent or its stream throws,
  `generateStream` returns the `generateText` fallback's text without
  calling `onChunk`; when every provider fails it throws.

## Model

| member | source | states |
|---|---|---|
| AI.Messages | lib/ai/client.ts:49-53 | a system message exactly when the system prompt is non-empty, then exactly one user message carrying the prompt |
| AI.ConcatNonEmpty | lib/ai/client.ts:147-155 | skipping empty deltas does not change the text they spell |
| AI.ConsumeStream | lib/ai/client.ts:147-155 | the `for await` loop hands `onChunk` exactly the non-empty deltas in order, and returns their concatenation |
| AI.AIClient.constructor | lib/ai/client.ts:20-39 | a provider handle exists exactly when its environment key is set |
| AI.AIClient.CascadeSpec | lib/ai/client.ts:55-121 | the cascade fails iff no present provider gives an accepted reply; otherwise it returns the reply of the first that does, which is the last one called; only present providers are called, in priority order |
| AI.AIClient.CascadeTried | lib/ai/client.ts:56-119 | a provider is called iff it is present and no earlier provider succeeded |
| AI.AIClient.GenerateTextSpec | lib/ai/client.ts:41-122 | `generateText` throws 'All AI providers failed' iff every provider is absent or fails; otherwise it returns the first success's non-empty text tagged with that provider, and no later provider is called |
| AI.AIClient.GenerateStream | lib/ai/client.ts:124-164 | with OpenAI present and its stream complete: the concatenated non-empty deltas, each passed to `onChunk`, and one stream request; otherwise: the `generateText` fallback without options, not passed to `onChunk`, after any chunks already delivered, with OpenAI asked again inside it |
| AI.CascadeIsStraightLine | lib/ai/client.ts:55-121 | the first-success fold equals the source's three guarded attempts in a row |
| AI.OnlyClaudeConfigured | lib/ai/client.ts:96-119 | with only Claude configured and healthy, Claude's text is returned and neither OpenAI nor Gemini is called |
| AI.GeminiAfterOpenAIFails | lib/ai/client.ts:55-94 | when OpenAI throws or returns no text and Gemini succeeds, Gemini's text is returned after one OpenAI call, and Claude is not called |
| AI.NoProviderConfigured | lib/ai/client.ts:121 | with no key configured the call fails without calling any provider |
| AI.DefaultSettings | lib/ai/client.ts:58-110 | without options OpenAI and Claude get temperature 0.7 and 2000 tokens; Gemini gets `systemPrompt + "\n\n" + prompt`, or just the prompt |
| AI.ClientSlot.GetAIClient | lib/ai/client.ts:168-175 | the first call creates the client from the environment; every later call returns that same instance |
| Store.CookieToken | lib/auth/session.ts:32-37 | a cookie's token counts only when the cookie is present and its value non-empty |
| Sessions.RowFor | lib/auth/session.ts:39-42 | the lookup by token finds a row carrying the token, or reports that none does |
| Sessions.GetSession | lib/auth/session.ts:31-52 | no session without the cookie; a returned session is an unexpired row with the cookie's token, and it carries that row's user and token |
| Sessions.GetSessionResolves | lib/auth/session.ts:39-51 | with unique tokens, a cookie naming row i resolves to it up to and including its expiry time, and to nothing after |
| Sessions.GetCurrentUser | lib/auth/session.ts:63-74 | no user without a session; otherwise the user whose id the session names, absent only when no such user exists |
| Sessions.WithoutToken | lib/auth/session.ts:54-57 | the delete removes every row with the token and keeps every other row |
| Sessions.WithoutTokenUnique | lib/auth/session.ts:54-57 | deleting keeps tokens unique |
| Sessions.DeletedTokenUnresolvable | lib/auth/session.ts:54-61 | after deletion a cookie carrying the token resolves to no session |
| Sessions.NewSessionResolves | lib/auth/session.ts:5-28 | a new session resolves to its user exactly until its seven-day expiry |
| Sessions.CreateSession | lib/auth/session.ts:5-28 | one row (user, token, now + 7 days) is appended; the `session_token` cookie gets the same token and expiry; the token is returned |
| Sessions.DeleteSession | lib/auth/session.ts:54-61 | rows with the token are removed, every other row is kept, and the cookie is deleted |
| AdminAuth.LatestLogin | lib/auth/admin.ts:43-53 | the 'login' row from the last 24 hours with the greatest creation time, or none when no such row exists |
| AdminAuth.GetAdminSession | lib/auth/admin.ts:33-63 | none without a non-empty cookie, without a login row from the last 24 hours, or when the latest such row has no admin; otherwise that row's adminId, paired with the cookie's token |
| AdminAuth.AnyTokenResolves | lib/auth/admin.ts:33-63 | the token is never compared: any two non-empty cookies resolve to the same admin |
| AdminAuth.GetCurrentAdmin | lib/auth/admin.ts:70-81 | none without an admin session; otherwise the admin whose id the session names |
| AdminAuth.VerifyAdminPassword | lib/auth/admin.ts:83-98 | an unknown username is rejected; a success names an admin with that username whose hash matches the password |
| AdminAuth.VerifyAdminPasswordIff | lib/auth/admin.ts:83-98 | with unique usernames, the check succeeds with that admin's id iff the password matches the hash |
| AdminAuth.AdminLoginResolves | lib/auth/admin.ts:43-62 | a just-appended login row, created after every earlier login row, is the admin session for any non-empty cookie for the next 24 hours |
| AdminAuth.RecordAction | lib/auth/admin.ts:22-28 | an access-log insert appends exactly one row with the next id |
| AdminAuth.CreateAdminSession | lib/auth/admin.ts:8-31 | the `admin_session_token` cookie gets the token with a 24-hour expiry; one 'login' row with address 'unknown' is appended; no session row is stored |
| AdminAuth.DeleteAdminSession | lib/auth/admin.ts:65-68 | only the cookie is removed |
| Responsive.Classify | lib/utils/responsive.ts:11-21 | a width is Mobile iff it is below 768, Tablet iff it is in 768..1023, and Desktop iff it is at least 1024 |
| Responsive.GetResponsiveValue | lib/utils/responsive.ts:23-32 | the argument for the width's category |
| Responsive.ExactlyOneCategory | lib/utils/responsive.ts:5-21 | exactly one of the three predicates holds for every width |
| Responsive.ClassifyMonotone | lib/utils/responsive.ts:11-21 | a wider width never falls in an earlier category |
| Strings.TrimCutsWhitespace | app/api/auth/login/route.ts:19 | `trim()` returns a slice of its input and cuts off only whitespace |
| Strings.TrimEnds | app/api/auth/login/route.ts:19 | the trimmed string neither starts nor ends with whitespace |
| Strings.TrimCharacterized | app/api/auth/login/route.ts:19 | any slice with only whitespace around it and non-whitespace at both ends is the trim |
| Strings.TrimEmptyIff | app/api/auth/login/route.ts:9 | `trim().length === 0` iff the string is all whitespace |
| Strings.TrimIdempotent | app/api/auth/login/route.ts:17-26 | trimming twice changes nothing |
| Strings.Take | app/api/admin/curriculum/route.ts:63 | `substring(0, n)` is the prefix of length min(n, length) |
| Strings.StripExtension | app/api/admin/curriculum/route.ts:73 | a trailing '.' followed by one or more characters, none of them '.' or '/', is removed; other names are unchanged |
| Tables.FindFirst | app/api/auth/login/route.ts:17-21 | `findFirst` returns a matching row, or none exactly when no row matches |
| Tables.FindFirstAppended | app/api/auth/login/route.ts:17-30 | a created row that no earlier row matched is what a later `findFirst` finds |
| Tables.Latest | app/api/games/progress/route.ts:22-30 | `findFirst` ordered by a key descending returns a matching row with the greatest key, or none when no row matches |
| Tables.LatestAppended | lib/auth/admin.ts:43-53 | an appended matching row whose key is greater than every earlier match's is the one found |
| Tables.Insert | app/api/games/leaderboard/route.ts:8-11 | inserting into a descending sequence keeps it descending and adds exactly that row |
| Tables.SortDesc | app/api/games/leaderboard/route.ts:8-11 | `orderBy` descending returns the same rows, in descending order |
| GameScores.WordsOrZero | app/api/games/score/route.ts:51 | `wordsCompleted \|\| 0`: a truthy value is kept, anything else becomes 0 |
| GameScores.CheckScore | app/api/games/score/route.ts:14-43 | each 400 message comes back iff its check is the first to fail, in the order missing, game type, level range, score sign, with the range checks applied to the fields' JavaScript number conversion; otherwise the fields are accepted if they are integers, and a 500 if not |
| GameScores.NumericLevelRefused | app/api/games/score/route.ts:30-35 | a level sent as the decimal string of an out-of-range integer, or as a one-element array holding it, gets the level-range 400 |
| GameScores.BlankLevelRefused | app/api/games/score/route.ts:14-35 | a whitespace-only string level and an empty array level convert to 0: not missing, but out of range |
| GameScores.NumericScoreRefused | app/api/games/score/route.ts:38-43 | a negative score sent as a decimal string or a one-element array gets the negative-score 400 |
| GameScores.StringLevelReachesInsert | app/api/games/score/route.ts:30-56 | an in-range level sent as a string passes every guard and ends in 500 at the insert |
| JsNumber.DecimalRoundTrip | app/api/games/score/route.ts:30 | the number conversion that `<` applies reads an integer's decimal string back as that integer |
| JsNumber.SingletonArrayToNumber | app/api/games/score/route.ts:30 | an array holding one integer converts to that integer, through its `join(",")` string |
| JsNumber.BlankToZero | app/api/games/score/route.ts:30 | the empty array and a whitespace-only string convert to 0 |
| JsNumber.TrimIgnored | app/api/games/score/route.ts:38 | whitespace around a numeric string does not change the number it converts to |
| JsNumber.NonDecimalConverts | app/api/games/score/route.ts:38 | a `0x`, `0o` or `0b` string converts to its value in that base |
| JsNumber.SignedNonDecimalIsNaN | app/api/games/score/route.ts:38 | the same string with a minus sign in front converts to NaN, so it passes the sign check |
| JsNumber.NatToStringDigits | app/api/games/score/route.ts:30 | the decimal digits of a natural number read back as that number |
| GameScores.WellFormedAccepted | app/api/games/score/route.ts:14-53 | every typing/speaking submission with level 1..10 and score ≥ 0 is accepted with exactly its own fields |
| GameScores.SaveScore | app/api/games/score/route.ts:45-53 | exactly one row is appended, with the next id and the given fields |
| GameScores.PostScore | app/api/games/score/route.ts:5-58 | 401 before any validation; a failed check returns its 400 and stores nothing; an accepted body appends one row for the current user and returns that row |
| GameProgress.GameTypeParam | app/api/games/progress/route.ts:13-20 | the game type is never empty (default 'typing'), so the 400 branch is unreachable |
| GameProgress.LatestScore | app/api/games/progress/route.ts:22-30 | the user's row for that game with the greatest completion time, or none when the user has no row |
| GameProgress.NextLevel | app/api/games/progress/route.ts:32-42 | level 1 without a score; min(level + 1, 10) after five or more words; else the same level |
| GameProgress.NextLevelBounds | app/api/games/progress/route.ts:36-42 | from a level in 1..10 the result stays in 1..10 and rises by at most one; it stays the same iff fewer than five words were completed or the level is 10 |
| GameProgress.ProgressInRange | app/api/games/progress/route.ts:32-42 | if every stored level is in 1..10, the returned level is in 1..10 |
| GameProgress.GetProgress | app/api/games/progress/route.ts:5-42 | 401 iff there is no current user; otherwise the next level from the user's latest score |
| Leaderboard.Top | app/api/games/leaderboard/route.ts:6-11 | min(20, table size) rows of the table, sorted by level and then score, descending |
| Leaderboard.Omitted | app/api/games/leaderboard/route.ts:6-11 | the rows left out together with the rows shown make up the table |
| Leaderboard.NothingOmittedRanksAbove | app/api/games/leaderboard/route.ts:6-19 | no omitted row ranks strictly above a shown row, and a row is omitted only when 20 rows are shown |
| Leaderboard.Project | app/api/games/leaderboard/route.ts:21-26 | an entry carries the owner's first name and the row's game type, level and score |
| Leaderboard.Entries | app/api/games/leaderboard/route.ts:21-26 | the map keeps length and order, and fails iff some row has no owner |
| Leaderboard.GetLeaderboard | app/api/games/leaderboard/route.ts:4-35 | without authentication: at most 20 entries, one per top row in order, no entry ranking above an earlier one; 500 iff some top row has no owner |
| LoginRoute.NameOf | app/api/auth/login/route.ts:9-19 | a name is accepted iff it is a string that is not all whitespace; the accepted name is the trimmed one, and it is non-empty |
| LoginRoute.FindOrCreate | app/api/auth/login/route.ts:17-30 | an existing user with the name is reused and nothing is created; otherwise exactly one 'Beginner' user with the name is appended |
| LoginRoute.FindOrCreateIdempotent | app/api/auth/login/route.ts:17-30 | a second login with the same name finds the same user and leaves the table unchanged |
| LoginRoute.PostLogin | app/api/auth/login/route.ts:5-42 | a rejected name gives 400 and changes nothing; otherwise find-or-create, one new session and cookie for that user, and the user's id, name and level in the reply |
| ChatRoute.Prompt | app/api/interactive/chat/route.ts:37 | the message when one is given, else the opening sentence naming the topic |
| ChatRoute.Exchange | app/api/interactive/chat/route.ts:53-56 | exactly two entries: the user's message (or 'Start conversation'), then the assistant's reply |
| ChatRoute.SessionIndex | app/api/interactive/chat/route.ts:46-51 | the position of the transcript with the body's id, or -1 iff there is no id or no such transcript |
| ChatRoute.AppendExchange | app/api/interactive/chat/route.ts:52-61 | the loaded transcript's messages grow by the entries at the end; every other transcript is unchanged |
| ChatRoute.StartSession | app/api/interactive/chat/route.ts:65-77 | one transcript with the next id, owned by the user and holding the entries, is appended |
| ChatRoute.SaveTurn | app/api/interactive/chat/route.ts:44-77 | append to the named transcript when it exists, else create a new one owned by the current user |
| ChatRoute.Answer | app/api/interactive/chat/route.ts:39-83 | 500 with nothing stored when every provider fails; otherwise the turn is saved and the reply carries the content, the transcript id and the provider |
| ChatRoute.PostChat | app/api/interactive/chat/route.ts:6-83 | 401; 400 before any AI call; 500; each of these stores nothing; otherwise two entries are appended to the named transcript (whoever owns it), or a new transcript for the user holds exactly them |
| ChatRoute.AppendKeepsOwner | app/api/interactive/chat/route.ts:46-61 | appending keeps the transcript's owner and earlier entries, so another user's transcript can be appended to |
| LevelTestRoute.EvaluationOf | app/api/level-test/route.ts:42-51 | the parsed evaluation, or {'Beginner', 0.5, 'Evaluation completed'} when the reply is not JSON |
| LevelTestRoute.FallbackQuestionKinds | app/api/level-test/route.ts:119-132 | the fallback set is a `questions` array of five questions whose `type` members are speaking, grammar, vocabulary, comprehension, speaking |
| LevelTestRoute.GetLevelTest | app/api/level-test/route.ts:86-141 | 401 iff there is no current user; 500 iff every provider fails; else the parsed reply or the fallback set |
| LevelTestRoute.SaveEvaluation | app/api/level-test/route.ts:53-68 | one test row with the evaluation's result and score; the user's level becomes that result verbatim |
| LevelTestRoute.PostLevelTest | app/api/level-test/route.ts:6-83 | 401; 400 for missing questions or answers; 500 iff every provider fails; none of these stores anything; otherwise the test row, the new user level and the reply with the test id |
| CurriculumRoute.DocumentPrompt | app/api/admin/curriculum/route.ts:62-65 | the request holds the heading and at most the first 4000 characters of the text |
| CurriculumRoute.Fallback | app/api/admin/curriculum/route.ts:71-78 | the file name without its extension, 'General', 'Beginner', the fixed description, and a prefix of the text of at most 5000 characters |
| CurriculumRoute.Or | app/api/admin/curriculum/route.ts:84-88 | `x \|\| y` on strings |
| CurriculumRoute.Stored | app/api/admin/curriculum/route.ts:67-91 | parsed fields, with the file name for a missing title, the full text for missing content, and no description when the reply has none; on a parse failure, the fallback fields |
| CurriculumRoute.DotNameKeepsName | app/api/admin/curriculum/route.ts:73-84 | a name like '.env' strips to nothing, so the stored title falls back to the whole name |
| CurriculumRoute.SaveDocument | app/api/admin/curriculum/route.ts:34-41 | one document row with the next id, the file's name (twice), MIME type and bytes |
| CurriculumRoute.SaveCurriculum | app/api/admin/curriculum/route.ts:82-92 | one curriculum row with the next id and the given fields, source and document id |
| CurriculumRoute.Process | app/api/admin/curriculum/route.ts:33-102 | the document row is stored first; if every provider then fails the result is 500 and that row stays; else one curriculum row with source 'document' and that document's id |
| CurriculumRoute.PostCurriculum | app/api/admin/curriculum/route.ts:15-110 | any signed-in user may upload (`isAdmin` is never called); 401, 400 and a document parse failure store nothing; then as in Process |
| CurriculumRoute.Summaries | app/api/admin/curriculum/route.ts:121-129 | the selected columns of each row, in order |
| CurriculumRoute.SummariesPermute | app/api/admin/curriculum/route.ts:119-130 | reordering the rows only reorders their summaries |
| CurriculumRoute.NewestFirst | app/api/admin/curriculum/route.ts:119-120 | the same rows ordered by creation time, descending |
| CurriculumRoute.GetCurricula | app/api/admin/curriculum/route.ts:112-140 | 401 iff there is no current user; otherwise the summary of every curriculum, each once, newest first |
| CurriculumGenerateRoute.OptionalLine | app/api/admin/curriculum/generate/route.ts:44-45 | the objectives and context lines are present only when their value was given |
| CurriculumGenerateRoute.Stored | app/api/admin/curriculum/generate/route.ts:51-72 | the parsed title or `${topic} - ${difficulty}`, the parsed content or the raw reply, and the parsed description when it is a non-empty string, else the request's as it is, absent included |
| CurriculumGenerateRoute.OrGiven | app/api/admin/curriculum/generate/route.ts:67 | `x \|\| y` with either side possibly absent: `x` when it is a non-empty string, else `y` unchanged |
| CurriculumGenerateRoute.AbsentDescriptionStaysAbsent | app/api/admin/curriculum/generate/route.ts:67 | a reply without a non-empty description stores the request's description, so with none in the request no description is stored |
| CurriculumGenerateRoute.FallbackStored | app/api/admin/curriculum/generate/route.ts:54-69 | on an unparseable reply: title `${topic} - ${difficulty} Level`, content the raw reply, and the request's description or the default sentence |
| CurriculumGenerateRoute.Answer | app/api/admin/curriculum/generate/route.ts:62-82 | 500 with nothing stored when every provider fails; else one 'ai_generated' row with the request's topic and difficulty, and its id, title, topic and difficulty in the reply |
| CurriculumGenerateRoute.PostGenerate | app/api/admin/curriculum/generate/route.ts:6-89 | 401 without an admin, 400 without topic and difficulty, 500 on generation failure; none of these stores anything; then as in Answer |
| SettingsRoute.ToMapKeys | app/api/admin/settings/route.ts:13-17 | the object's keys are exactly the rows' keys |
| SettingsRoute.ToMapLookup | app/api/admin/settings/route.ts:13-17 | with unique keys each key maps to its row's value |
| SettingsRoute.SettingsObject | app/api/admin/settings/route.ts:14-17 | the `forEach` builds exactly the table's object |
| SettingsRoute.GetSettings | app/api/admin/settings/route.ts:6-27 | 401 iff there is no admin; otherwise every stored key with its value, and no other key |
| SettingsRoute.KeyIndex | app/api/admin/settings/route.ts:39-40 | the position of the row with the key, or -1 iff there is none |
| SettingsRoute.Upsert | app/api/admin/settings/route.ts:39-43 | the row with the key gets the value, or a new row is appended; keys stay unique |
| SettingsRoute.UpsertKeys | app/api/admin/settings/route.ts:39-43 | an upsert adds its key to the object's keys and no other |
| SettingsRoute.UpsertSets | app/api/admin/settings/route.ts:39-43 | the object after an upsert is the object before with that key set |
| SettingsRoute.UpsertAll | app/api/admin/settings/route.ts:38-44 | the upserts applied in order keep keys unique |
| SettingsRoute.Keys | app/api/admin/settings/route.ts:55 | `Object.keys(body)`: the body's keys in order |
| SettingsRoute.UpsertAllSets | app/api/admin/settings/route.ts:38-44 | after the loop every body key maps to its body value |
| SettingsRoute.UpsertAllKeeps | app/api/admin/settings/route.ts:38-44 | a key the body does not mention keeps its value, or stays absent |
| SettingsRoute.UpsertEntries | app/api/admin/settings/route.ts:38-44 | the loop leaves exactly the in-order upserts of the entries |
| SettingsRoute.PostSettings | app/api/admin/settings/route.ts:29-67 | as intended: 401 without an admin and no change; else the upserts and exactly one 'update_settings' log row with the admin's id and the body's keys |
| SettingsRoute.PostSettingsAsWritten | app/api/admin/settings/route.ts:38-48 | as written: after the upserts the undefined `refreshApiKeys` call throws, so every admin request ends in 500 with no log row |

## Left out

- The provider SDKs, their HTTP transport, and `console.error` logging are I/O. Each SDK call is the `oracle` parameter; a stream is a `Stream` value.
- Credential refresh (`refreshApiKeys`) is not in `lib/ai/client.ts`, so the client has no refresh to model. Its call site is the Findings row.
- bcrypt and `hashPassword` (`lib/auth/admin.ts:100-102`) are hashing libraries. `verifyAdminPassword` takes the comparison as `matches`; `hashPassword` is not modelled.
- `crypto.randomBytes` tokens are I/O. A token is a parameter; its length and its freshness in the table are preconditions.
- `parseDocument` (lib/document/parser.ts) is not part of this model. It is the `parseDoc` parameter, and its throw is `None`.
- `JSON.parse` and `JSON.stringify` are library calls. They are the `parse` and `stringify` parameters.
- Parsed AI replies are modelled as records whose string fields are present: a string field the reply lacks is the empty string, and `parse` never yields `null` or a non-object. The curriculum descriptions are the exception: they are optional (`None` when absent or null), and `None` is stored as null. The empty-string rule matches the source where the field is read with `||` (the curriculum titles and contents). Elsewhere it does not:
  - In the source a missing field is `undefined`. For a level-test reply `{}`, `evaluation.result` is `undefined` (app/api/level-test/route.ts:44,59,67). Prisma leaves an undefined field out of `data`, so `user.update` keeps the user's level; the model stores the empty string instead.
  - CurriculumRoute.Stored: a `topic` or `difficulty` missing from the upload route's reply is stored as the empty string; the source leaves it out of `data` (app/api/admin/curriculum/route.ts:85-86).
  - A reply that parses to `null` makes `evaluation.result` throw a TypeError, which gives 500; the model has no such case.
- Malformed request bodies (`request.json()` throwing) and database errors (a failed connection, a violated constraint) reach the handlers' `catch` and give 500 in the source. They are not modelled.
- Numbers in request bodies are integers. Temperatures and evaluation scores are `real` constants passed through unchanged, with no floating point.
- GameScores.CheckScore: `JsNumber.ToNumber` converts numeric strings to their exact decimal value, not to the nearest double. The range checks therefore decide differently only for strings whose rounding crosses a bound, such as `"0.99999999999999999999"` (1 as a double) or `"-1e-400"` (-0 as a double). Integer column widths are not modelled: any integer passes the insert.
- The chat, curriculum generation and settings bodies are modelled with string fields only. A non-string value, such as a settings value that is not a string, is not modelled.
- Responsive: widths are integers. The source's `width: number` also takes fractions and NaN. A fractional width is classified by the same comparisons, but for NaN `isMobile`, `isTablet` and `isDesktop` are all false, so Responsive.ExactlyOneCategory does not hold for it, and `getResponsiveValue` returns the desktop value.
- The string helpers work on `seq<char>` positions, not UTF-16 code units, so `substring` lengths count characters.
- Tables.Latest: among matching rows with equal keys, the model returns the one inserted last. The database's `findFirst` with a descending `orderBy` promises no particular row among ties, so this is a modelling choice. AdminAuth.GetAdminSession, AdminAuth.GetCurrentAdmin and GameProgress.GetProgress inherit it. Tables.LatestAppended and AdminAuth.AdminLoginResolves do not rely on it: they require the new row's key to be strictly greater.
- Tables.SortDesc: the order among rows with equal keys is unspecified in the database and is not modelled. Leaderboard.GetLeaderboard and CurriculumRoute.GetCurricula therefore promise the ordering and the multiset of rows, not one particular tie order.
- The unused `isAdmin` helper (`app/api/admin/curriculum/route.ts:8-13`) is never called, so it has no member.
- Concurrency between requests is not modelled. Each handler is one atomic step on the tables.
- The scripts, React components, i18n and Next.js configuration, middleware, and the logout and admin auth glue routes are outside the core. Those routes only call the session and admin functions modelled here.

## Findings

| source | as written | input that shows it | evidently intended | confidence | as-written member | corrected member |
|---|---|---|---|---|---|---|
| app/api/admin/settings/route.ts:47-57 | after the upserts the handler calls `aiClient.refreshApiKeys()`, which the AI client class does not define; the TypeError sends every admin request to the 500 branch, with the settings already changed and no access-log row | any admin POST, e.g. body `{"OPENAI_API_KEY": "k"}` with a valid admin session | the upserts, one 'update_settings' log row with the body's keys, and `{success: true}` | not executed (a type-checked build would also reject the call) | SettingsRoute.PostSettingsAsWritten | SettingsRoute.PostSettings |
