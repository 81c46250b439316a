/** `/api/admin/curriculum`: POST turns an uploaded document into a
    curriculum with the AI's help; GET lists the curricula, newest first.
    Any signed-in user may do either: the route's `isAdmin` helper is never
    called. */
module CurriculumRoute {
  import opened Wrappers
  import opened Store
  import opened Http
  import Strings
  import Tables
  import Sessions
  import AI

  const NoFile := "No file provided"
  const PromptLimit := 4000
  const FallbackContentLimit := 5000
  const DocumentSource := "document"

  /** The uploaded form field: the file's name, MIME type and bytes. */
  datatype Upload = Upload(name: string, mimeType: string, bytes: seq<Byte>)

  /** The curriculum fields the AI is asked for. A string field the reply
      lacks is the empty string; a description the reply lacks, or gives as
      null, is `None`, and is stored as null. */
  datatype CurriculumData = CurriculumData(title: string, topic: string, difficulty: string,
                                           description: Option<string>, content: string)

  datatype CurriculumReply = CurriculumReply(id: Id, title: string, topic: string, difficulty: string)

  const GeneratorPrompt := "You are a Korean language curriculum generator. Analyze the provided document content and create a structured Korean language learning curriculum. \n"
    + "    The curriculum should include:\n"
    + "    1. Title\n"
    + "    2. Topic/Theme\n"
    + "    3. Difficulty level (Beginner/Intermediate/Professional)\n"
    + "    4. Learning objectives\n"
    + "    5. Detailed content structure\n"
    + "    \n"
    + "    Respond in JSON format with the following structure:\n"
    + "    {\n"
    + "      \"title\": \"Curriculum Title\",\n"
    + "      \"topic\": \"Main Topic\",\n"
    + "      \"difficulty\": \"Beginner|Intermediate|Professional\",\n"
    + "      \"description\": \"Brief description\",\n"
    + "      \"content\": \"Detailed curriculum content\"\n"
    + "    }"

  /** The request text: a fixed heading and at most the first 4000
      characters of the document's text. */
  function DocumentPrompt(text: string): (r: string)
    ensures |r| <= |"Document content:\n\n"| + PromptLimit
    ensures r == "Document content:\n\n" + Strings.Take(text, PromptLimit)
  {
    "Document content:\n\n" + Strings.Take(text, PromptLimit)
  }

  /** The structure used when the reply is not JSON: the file name without
      its extension, fixed topic, level and description, and the first 5000
      characters of the text. */
  function Fallback(name: string, text: string): (d: CurriculumData)
    ensures d.topic == "General" && d.difficulty == "Beginner" && d.description == Some("Generated from document")
    ensures d.title == Strings.StripExtension(name)
    ensures |d.content| <= FallbackContentLimit && |d.content| <= |text| && d.content == text[..|d.content|]
  {
    CurriculumData(Strings.StripExtension(name), "General", "Beginner", Some("Generated from document"),
                   Strings.Take(text, FallbackContentLimit))
  }

  /** `x || y` on strings. */
  function Or(x: string, y: string): (r: string)
    ensures x != "" ==> r == x
    ensures x == "" ==> r == y
  {
    if x != "" then x else y
  }

  /** The stored fields: the parsed (or fallback) structure, with the file
      name for a missing title and the full text for missing content. */
  function Stored(name: string, text: string, parsed: Option<CurriculumData>): (d: CurriculumData)
    ensures parsed.Some? ==>
      && d.title == Or(parsed.value.title, name) && d.content == Or(parsed.value.content, text)
      && d.topic == parsed.value.topic && d.difficulty == parsed.value.difficulty
      && d.description == parsed.value.description
    ensures parsed.None? ==>
      && d.title == Or(Strings.StripExtension(name), name)
      && d.topic == "General" && d.difficulty == "Beginner" && d.description == Some("Generated from document")
      && d.content == Strings.Take(text, FallbackContentLimit)
  {
    var data := parsed.GetOr(Fallback(name, text));
    data.(title := Or(data.title, name), content := Or(data.content, text))
  }

  /** A name whose only dot starts it, like ".env", loses everything to the
      extension rule, so the stored title falls back to the whole name. */
  lemma DotNameKeepsName()
    ensures Stored(".env", "text", None).title == ".env"
  {
    var name := ".env";
    assert Strings.ExtensionAt(name, 0);
    assert Strings.StripExtension(name) == "";
  }

  /** The ask of one upload. */
  function Ask(ai: AI.AIClient, text: string, oracle: AI.Request -> AI.Reply): AI.Generated {
    ai.GenerateText(DocumentPrompt(text), Some(GeneratorPrompt), AI.NoOptions, oracle).result
  }

  method SaveDocument(db: Database, file: Upload) returns (id: Id)
    requires db.Valid()
    modifies db`documents, db`nextId
    ensures db.Valid()
    ensures id == old(db.nextId) && db.nextId == id + 1
    ensures db.documents == old(db.documents) + [CurriculumDocument(id, file.name, file.name, file.mimeType, file.bytes)]
  {
    id := db.nextId;
    db.documents := db.documents + [CurriculumDocument(id, file.name, file.name, file.mimeType, file.bytes)];
    db.nextId := db.nextId + 1;
  }

  method SaveCurriculum(db: Database, d: CurriculumData, source: string, documentId: Option<Id>, now: int)
    returns (id: Id)
    requires db.Valid()
    modifies db`curricula, db`nextId
    ensures db.Valid()
    ensures id == old(db.nextId) && db.nextId == id + 1
    ensures db.curricula == old(db.curricula) +
      [Curriculum(id, d.title, d.topic, d.difficulty, d.description, d.content, source, documentId, now)]
  {
    id := db.nextId;
    db.curricula := db.curricula + [Curriculum(id, d.title, d.topic, d.difficulty, d.description, d.content, source, documentId, now)];
    db.nextId := db.nextId + 1;
  }

  /** What follows a successful parse: the document row is stored; then a
      failure of every AI provider gives 500 with that row kept, and
      otherwise one curriculum row follows, with source 'document' and the
      new document's id. */
  method Process(db: Database, file: Upload, text: string, g: AI.Generated, parse: string -> Option<CurriculumData>,
                 now: int) returns (r: Response<CurriculumReply>)
    requires db.Valid()
    modifies db`documents, db`curricula, db`nextId
    ensures db.Valid()
    ensures db.documents == old(db.documents) + [CurriculumDocument(old(db.nextId), file.name, file.name,
                                                                    file.mimeType, file.bytes)]
    ensures g.AllProvidersFailed? ==> r == Fail(ServerError, ServerErrorMessage) && db.curricula == old(db.curricula)
    ensures g.Generated? ==>
      var d := Stored(file.name, text, parse(g.content));
      && r == Ok(CurriculumReply(old(db.nextId) + 1, d.title, d.topic, d.difficulty))
      && db.curricula == old(db.curricula) + [Curriculum(old(db.nextId) + 1, d.title, d.topic, d.difficulty,
                                                         d.description, d.content, DocumentSource,
                                                         Some(old(db.nextId)), now)]
  {
    var documentId := SaveDocument(db, file);
    if g.AllProvidersFailed? {
      return Fail(ServerError, ServerErrorMessage);
    }
    var d := Stored(file.name, text, parse(g.content));
    var id := SaveCurriculum(db, d, DocumentSource, Some(documentId), now);
    r := Ok(CurriculumReply(id, d.title, d.topic, d.difficulty));
  }

  /** `POST`: 401 without a current user and 400 without a file. The file is
      parsed (`parseDoc`, which fails on unsupported types) before anything is
      stored, so a parse failure gives 500 and stores nothing; otherwise the
      upload is processed as above. */
  method PostCurriculum(db: Database, cookies: map<string, Cookie>, now: int, ai: AI.AIClient,
                        oracle: AI.Request -> AI.Reply, file: Option<Upload>,
                        parseDoc: (seq<Byte>, string) -> Option<string>, parse: string -> Option<CurriculumData>)
    returns (r: Response<CurriculumReply>)
    requires db.Valid()
    modifies db`documents, db`curricula, db`nextId
    ensures db.Valid()
    ensures var user := Sessions.GetCurrentUser(db.sessions, db.users, cookies, now);
      && (user.None? ==> r == Fail(Unauthorized, UnauthorizedMessage))
      && (user.Some? && file.None? ==> r == Fail(BadRequest, NoFile))
    ensures r.Fail? ==> db.curricula == old(db.curricula)
    ensures Sessions.GetCurrentUser(db.sessions, db.users, cookies, now).None? || file.None? ==>
      db.documents == old(db.documents)
    ensures Sessions.GetCurrentUser(db.sessions, db.users, cookies, now).Some? && file.Some? ==>
      var text := parseDoc(file.value.bytes, file.value.mimeType);
      && (text.None? ==> r == Fail(ServerError, ServerErrorMessage) && db.documents == old(db.documents))
      && (text.Some? ==>
            && db.documents == old(db.documents) + [CurriculumDocument(old(db.nextId), file.value.name,
                                                     file.value.name, file.value.mimeType, file.value.bytes)]
            && var g := Ask(ai, text.value, oracle);
               && (g.AllProvidersFailed? ==> r == Fail(ServerError, ServerErrorMessage))
               && (g.Generated? ==>
                     var d := Stored(file.value.name, text.value, parse(g.content));
                     && r == Ok(CurriculumReply(old(db.nextId) + 1, d.title, d.topic, d.difficulty))
                     && db.curricula == old(db.curricula) + [Curriculum(old(db.nextId) + 1, d.title, d.topic,
                          d.difficulty, d.description, d.content, DocumentSource, Some(old(db.nextId)), now)]))
  {
    var user := Sessions.GetCurrentUser(db.sessions, db.users, cookies, now);
    if user.None? {
      return Fail(Unauthorized, UnauthorizedMessage);
    }
    if file.None? {
      return Fail(BadRequest, NoFile);
    }
    var text := parseDoc(file.value.bytes, file.value.mimeType);
    if text.None? {
      return Fail(ServerError, ServerErrorMessage);
    }
    var g := Ask(ai, text.value, oracle);
    r := Process(db, file.value, text.value, g, parse, now);
  }

  /** The columns the list selects. */
  datatype Summary = Summary(id: Id, title: string, topic: string, difficulty: string, description: Option<string>,
                             source: string, createdAt: int)

  function SummaryOf(c: Curriculum): Summary {
    Summary(c.id, c.title, c.topic, c.difficulty, c.description, c.source, c.createdAt)
  }

  function Newest(c: Curriculum): (int, int) {
    (c.createdAt, 0)
  }

  function Summaries(rows: seq<Curriculum>): (r: seq<Summary>)
    ensures |r| == |rows|
    ensures forall i | 0 <= i < |rows| :: r[i] == SummaryOf(rows[i])
  {
    seq(|rows|, i requires 0 <= i < |rows| => SummaryOf(rows[i]))
  }

  /** Dropping a row and summarising commute. */
  lemma SummariesWithout(rows: seq<Curriculum>, k: nat)
    requires k < |rows|
    ensures Summaries(Tables.Without(rows, k)) == Tables.Without(Summaries(rows), k)
  {
  }

  /** Summarising a row in front of the others. */
  lemma SummariesPrepend(a: seq<Curriculum>, b: seq<Curriculum>, k: nat)
    requires a != [] && k < |b| && b[k] == a[0]
    requires multiset(Summaries(a[1..])) == multiset(Summaries(Tables.Without(b, k)))
    ensures multiset(Summaries(a)) == multiset(Summaries(b))
  {
    SummariesWithout(b, k);
    Tables.WithoutAdds(Summaries(b), k);
    assert Summaries(a) == [SummaryOf(a[0])] + Summaries(a[1..]);
  }

  /** Rows that are a permutation of each other have summaries that are a
      permutation of each other. */
  lemma {:induction false} SummariesPermute(a: seq<Curriculum>, b: seq<Curriculum>)
    requires multiset(a) == multiset(b)
    ensures multiset(Summaries(a)) == multiset(Summaries(b))
    decreases |a|
  {
    if a != [] {
      var k := Tables.PermutedHead(a, b);
      SummariesPermute(a[1..], Tables.Without(b, k));
      SummariesPrepend(a, b, k);
    }
  }

  /** The curricula newest first. */
  function NewestFirst(curricula: seq<Curriculum>): (r: seq<Curriculum>)
    ensures multiset(r) == multiset(curricula) && |r| == |curricula|
    ensures forall i, j | 0 <= i < j < |r| :: r[j].createdAt <= r[i].createdAt
  {
    var sorted := Tables.SortDesc(curricula, Newest);
    assert |sorted| == |curricula| by { assert |multiset(sorted)| == |multiset(curricula)|; }
    forall i, j | 0 <= i < j < |sorted|
      ensures sorted[j].createdAt <= sorted[i].createdAt
    {
      assert !Tables.Above(Newest(sorted[j]), Newest(sorted[i]));
    }
    sorted
  }

  /** `GET`: 401 without a current user; otherwise the summary of every
      curriculum, newest first: a reordering of the summaries of all rows. */
  function GetCurricula(sessions: seq<SessionRow>, users: seq<User>, cookies: map<string, Cookie>, now: int,
                        curricula: seq<Curriculum>): (r: Response<seq<Summary>>)
    ensures Sessions.GetCurrentUser(sessions, users, cookies, now).None? <==> r.Fail?
    ensures r.Fail? ==> r == Fail(Unauthorized, UnauthorizedMessage)
    ensures r.Ok? ==> multiset(r.body) == multiset(Summaries(curricula))
    ensures r.Ok? ==> forall i, j | 0 <= i < j < |r.body| :: r.body[j].createdAt <= r.body[i].createdAt
  {
    if Sessions.GetCurrentUser(sessions, users, cookies, now).None? then Fail(Unauthorized, UnauthorizedMessage)
    else
      var sorted := NewestFirst(curricula);
      SummariesPermute(sorted, curricula);
      Ok(Summaries(sorted))
  }
}
