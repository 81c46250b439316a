/** The multi-provider text-generation client: a fixed priority list of three
    providers, each tried at most once per request, the first non-empty reply
    winning. Every SDK call is an oracle: a total function from the request
    the client sends to the reply it gets back. */
module AI {
  import opened Wrappers

  datatype Provider = OpenAI | Gemini | Claude

  /** The fallback order. */
  const Order: seq<Provider> := [OpenAI, Gemini, Claude]

  /** A provider's position in the fallback order. */
  function Rank(p: Provider): nat {
    match p
    case OpenAI => 0
    case Gemini => 1
    case Claude => 2
  }

  const OpenAIModel := "gpt-4o"
  const GeminiModel := "gemini-pro"
  const ClaudeModel := "claude-3-5-sonnet-20241022"

  const DefaultTemperature: real := 0.7
  const DefaultMaxTokens: int := 2000

  datatype Role = SystemRole | UserRole | AssistantRole

  datatype Message = Message(role: Role, content: string)

  /** The caller's optional generation settings. */
  datatype Options = Options(temperature: Option<real>, maxTokens: Option<int>)

  const NoOptions := Options(None, None)

  /** What the client sends to a provider SDK. */
  datatype Request =
    | OpenAIChat(model: string, messages: seq<Message>, temperature: real, maxTokens: int)
    | OpenAIStream(model: string, messages: seq<Message>)
    | GeminiContent(model: string, fullPrompt: string)
    | ClaudeMessages(model: string, system: Option<string>, messages: seq<Message>,
                     maxTokens: int, temperature: real)

  function ProviderOf(req: Request): Provider {
    match req
    case OpenAIChat(_, _, _, _) => OpenAI
    case OpenAIStream(_, _) => OpenAI
    case GeminiContent(_, _) => Gemini
    case ClaudeMessages(_, _, _, _, _) => Claude
  }

  /** What a non-streaming SDK call yields: it throws, it returns text (the
      empty string when the reply carries no content), or, for Claude, the
      first content block is not a text block. */
  datatype Reply = Threw | Returned(text: string) | NonTextBlock

  /** The reply a provider must give for the cascade to stop at it. */
  predicate Accepted(reply: Reply) {
    reply.Returned? && reply.text != ""
  }

  /** A streamed completion: the deltas it yields (the empty string for a
      chunk without content), after which it either completes or throws. A
      stream whose creation throws is `Breaks([])`. */
  datatype Stream = Completes(deltas: seq<string>) | Breaks(deltas: seq<string>)

  /** The process environment the constructor reads. */
  datatype Env = Env(openaiKey: Option<string>, geminiKey: Option<string>, anthropicKey: Option<string>)

  /** An environment variable counts when it is set to a non-empty string. */
  predicate KeySet(key: Option<string>) {
    key.Some? && key.value != ""
  }

  /** An optional prompt counts when it is present and non-empty. */
  predicate Given(s: Option<string>) {
    s.Some? && s.value != ""
  }

  /** The result of `generateText`: the winning reply tagged with its
      provider, or the single 'All AI providers failed' error. */
  datatype Generated = Generated(content: string, provider: Provider) | AllProvidersFailed

  /** A generation result together with the providers actually called, in
      call order. */
  datatype Attempt = Attempt(result: Generated, tried: seq<Provider>)

  /** The result of `generateStream`: the full text, or the error thrown by
      the `generateText` fallback. */
  datatype Streamed = Streamed(text: string) | StreamFailed

  /** The chat message list: a system message only for a non-empty system
      prompt, then exactly one user message carrying the prompt. */
  function Messages(prompt: string, systemPrompt: Option<string>): (ms: seq<Message>)
    ensures |ms| == if Given(systemPrompt) then 2 else 1
    ensures ms[|ms| - 1] == Message(UserRole, prompt)
    ensures Given(systemPrompt) ==> ms[0] == Message(SystemRole, systemPrompt.value)
  {
    (if Given(systemPrompt) then [Message(SystemRole, systemPrompt.value)] else [])
      + [Message(UserRole, prompt)]
  }

  /** Gemini receives a single string: system prompt, blank line, prompt. */
  function GeminiPrompt(prompt: string, systemPrompt: Option<string>): string {
    if Given(systemPrompt) then systemPrompt.value + "\n\n" + prompt else prompt
  }

  /** The concatenation of a sequence of text pieces. */
  function Concat(pieces: seq<string>): string {
    if pieces == [] then ""
    else Concat(pieces[..|pieces| - 1]) + pieces[|pieces| - 1]
  }

  /** The non-empty pieces, in order. */
  function NonEmpty(pieces: seq<string>): (r: seq<string>)
    ensures |r| <= |pieces|
    ensures forall k | 0 <= k < |r| :: r[k] != ""
  {
    if pieces == [] then []
    else
      NonEmpty(pieces[..|pieces| - 1])
        + (if pieces[|pieces| - 1] == "" then [] else [pieces[|pieces| - 1]])
  }

  lemma ConcatAppend(pieces: seq<string>, more: seq<string>)
    ensures Concat(pieces + more) == Concat(pieces) + Concat(more)
    decreases |more|
  {
    if more == [] {
      assert pieces + more == pieces;
    } else {
      var last := more[|more| - 1];
      assert pieces + more == (pieces + more[..|more| - 1]) + [last];
      ConcatAppend(pieces, more[..|more| - 1]);
    }
  }

  /** Dropping the empty deltas does not change the text they spell. */
  lemma {:induction false} ConcatNonEmpty(pieces: seq<string>)
    ensures Concat(NonEmpty(pieces)) == Concat(pieces)
  {
    if pieces != [] {
      var init := pieces[..|pieces| - 1];
      var last := pieces[|pieces| - 1];
      ConcatNonEmpty(init);
      var tail := if last == "" then [] else [last];
      ConcatAppend(NonEmpty(init), tail);
      assert Concat(tail) == last by {
        if tail != [] {
          assert tail[..0] == [];
        }
      }
    }
  }

  /** The `for await` loop of `generateStream`: every non-empty delta is
      appended to the running text and handed to `onChunk` (the calls are
      returned in order as `delivered`); empty deltas are skipped. */
  method ConsumeStream(deltas: seq<string>) returns (fullContent: string, delivered: seq<string>)
    ensures delivered == NonEmpty(deltas)
    ensures fullContent == Concat(delivered)
  {
    fullContent, delivered := "", [];
    var i := 0;
    while i < |deltas|
      invariant 0 <= i <= |deltas|
      invariant delivered == NonEmpty(deltas[..i])
      invariant fullContent == Concat(delivered)
    {
      var content := deltas[i];
      assert deltas[..i + 1][..i] == deltas[..i];
      if content != "" {
        assert (delivered + [content])[..|delivered|] == delivered;
        fullContent := fullContent + content;
        delivered := delivered + [content];
      }
      i := i + 1;
    }
    assert deltas[..i] == deltas;
  }

  class AIClient {
    /** Whether each provider handle was created. */
    const openai: bool
    const gemini: bool
    const claude: bool

    /** A handle exists exactly for the providers whose key is set. */
    constructor (env: Env)
      ensures openai == KeySet(env.openaiKey)
      ensures gemini == KeySet(env.geminiKey)
      ensures claude == KeySet(env.anthropicKey)
    {
      openai := KeySet(env.openaiKey);
      gemini := KeySet(env.geminiKey);
      claude := KeySet(env.anthropicKey);
    }

    predicate Present(p: Provider) {
      match p
      case OpenAI => openai
      case Gemini => gemini
      case Claude => claude
    }

    /** The request each provider is sent by `generateText`. */
    function RequestFor(p: Provider, prompt: string, systemPrompt: Option<string>, opts: Options): (r: Request)
      ensures ProviderOf(r) == p
    {
      match p
      case OpenAI =>
        OpenAIChat(OpenAIModel, Messages(prompt, systemPrompt),
                   opts.temperature.GetOr(DefaultTemperature), opts.maxTokens.GetOr(DefaultMaxTokens))
      case Gemini =>
        GeminiContent(GeminiModel, GeminiPrompt(prompt, systemPrompt))
      case Claude =>
        ClaudeMessages(ClaudeModel, systemPrompt, [Message(UserRole, prompt)],
                       opts.maxTokens.GetOr(DefaultMaxTokens), opts.temperature.GetOr(DefaultTemperature))
    }

    /** The reply each provider would give to the request `generateText`
        sends it. */
    function Replies(prompt: string, systemPrompt: Option<string>, opts: Options,
                     oracle: Request -> Reply): Provider -> Reply
    {
      p => oracle(RequestFor(p, prompt, systemPrompt, opts))
    }

    /** Provider `p` is present and its reply is accepted. */
    predicate Succeeds(p: Provider, replies: Provider -> Reply) {
      Present(p) && Accepted(replies(p))
    }

    /** The requests issued to the providers in `tried`, in order. */
    function Requests(tried: seq<Provider>, prompt: string, systemPrompt: Option<string>, opts: Options): (rs: seq<Request>)
      ensures |rs| == |tried|
      ensures forall k | 0 <= k < |tried| :: rs[k] == RequestFor(tried[k], prompt, systemPrompt, opts)
    {
      if tried == [] then []
      else [RequestFor(tried[0], prompt, systemPrompt, opts)] + Requests(tried[1..], prompt, systemPrompt, opts)
    }

    /** First success over the providers from position `from` of the fallback
        order on: an absent provider is skipped without a call, a provider
        that throws or gives no text is passed over, and the first accepted
        reply ends the cascade. */
    function Cascade(from: nat, replies: Provider -> Reply): Attempt
      requires from <= |Order|
      decreases |Order| - from
    {
      if from == |Order| then
        Attempt(AllProvidersFailed, [])
      else
        var p := Order[from];
        var rest := Cascade(from + 1, replies);
        if !Present(p) then
          rest
        else if Accepted(replies(p)) then
          Attempt(Generated(replies(p).text, p), [p])
        else
          Attempt(rest.result, [p] + rest.tried)
    }

    /** The cascade from `from` fails exactly when no provider from there on
        succeeds; otherwise it returns the reply of the first one that does,
        which is the last provider called. It calls only present providers,
        from `from` on, in fallback order. */
    lemma {:induction false} CascadeSpec(from: nat, replies: Provider -> Reply)
      requires from <= |Order|
      ensures var a := Cascade(from, replies);
        && (a.result.AllProvidersFailed? <==> forall p | from <= Rank(p) :: !Succeeds(p, replies))
        && (a.result.Generated? ==>
              && from <= Rank(a.result.provider)
              && Succeeds(a.result.provider, replies)
              && a.result.content == replies(a.result.provider).text
              && (forall p | from <= Rank(p) < Rank(a.result.provider) :: !Succeeds(p, replies))
              && a.tried != [] && a.tried[|a.tried| - 1] == a.result.provider)
        && (forall k | 0 <= k < |a.tried| :: Present(a.tried[k]))
        && (a.tried != [] ==> from <= Rank(a.tried[0]))
        && (forall k | 0 <= k < |a.tried| - 1 :: Rank(a.tried[k]) < Rank(a.tried[k + 1]))
      decreases |Order| - from
    {
      if from < |Order| {
        var p := Order[from];
        assert Rank(p) == from;
        CascadeSpec(from + 1, replies);
      }
    }

    /** Every provider from position `from` on that ranks before `p` fails. */
    predicate NoneSucceedBefore(from: nat, p: Provider, replies: Provider -> Reply) {
      forall q | from <= Rank(q) < Rank(p) :: !Succeeds(q, replies)
    }

    /** The cascade calls exactly the present providers that no earlier
        provider pre-empts. */
    lemma {:induction false} CascadeTried(from: nat, replies: Provider -> Reply)
      requires from <= |Order|
      ensures forall p :: p in Cascade(from, replies).tried <==>
                from <= Rank(p) && Present(p) && NoneSucceedBefore(from, p, replies)
      decreases |Order| - from
    {
      var a := Cascade(from, replies);
      if from == |Order| {
        assert a.tried == [];
      } else {
        var p := Order[from];
        assert Rank(p) == from;
        var rest := Cascade(from + 1, replies);
        CascadeTried(from + 1, replies);
        forall q
          ensures q in a.tried <==> from <= Rank(q) && Present(q) && NoneSucceedBefore(from, q, replies)
        {
          if q == p {
            assert NoneSucceedBefore(from, q, replies);
            assert q in a.tried <==> Present(p);
          } else if Rank(q) < from {
            assert q !in a.tried;
          } else {
            assert Rank(q) > from;
            assert NoneSucceedBefore(from, q, replies)
                   <==> !Succeeds(p, replies) && NoneSucceedBefore(from + 1, q, replies);
          }
        }
      }
    }

    /** `generateText`: the cascade over OpenAI, then Gemini, then Claude. It
        fails only when no provider succeeds; otherwise it returns the reply
        of the first provider that succeeds, and exactly the present providers
        up to that one are called, in order. */
    function GenerateText(prompt: string, systemPrompt: Option<string>, opts: Options,
                          oracle: Request -> Reply): Attempt
    {
      Cascade(0, Replies(prompt, systemPrompt, opts, oracle))
    }

    /** What `generateText` promises: it fails only when no provider
        succeeds; otherwise it returns the non-empty reply of the first
        provider that succeeds, and exactly the present providers up to that
        one are called, in order. */
    lemma GenerateTextSpec(prompt: string, systemPrompt: Option<string>, opts: Options, oracle: Request -> Reply)
      ensures var replies := Replies(prompt, systemPrompt, opts, oracle);
              var a := GenerateText(prompt, systemPrompt, opts, oracle);
              && (a.result.AllProvidersFailed? <==> forall p :: !Succeeds(p, replies))
              && (a.result.Generated? ==>
                    && Succeeds(a.result.provider, replies)
                    && a.result.content == oracle(RequestFor(a.result.provider, prompt, systemPrompt, opts)).text
                    && a.result.content != ""
                    && (forall p | Rank(p) < Rank(a.result.provider) :: !Succeeds(p, replies))
                    && a.tried != [] && a.tried[|a.tried| - 1] == a.result.provider)
              && (forall p :: p in a.tried <==> Present(p) && NoneSucceedBefore(0, p, replies))
              && (forall k | 0 <= k < |a.tried| - 1 :: Rank(a.tried[k]) < Rank(a.tried[k + 1]))
    {
      CascadeSpec(0, Replies(prompt, systemPrompt, opts, oracle));
      CascadeTried(0, Replies(prompt, systemPrompt, opts, oracle));
    }

    /** The fallback of `generateStream`: the content of `generateText` with
        no options, or the error it throws. */
    function FallbackText(prompt: string, systemPrompt: Option<string>, oracle: Request -> Reply): Streamed {
      var g := GenerateText(prompt, systemPrompt, NoOptions, oracle);
      if g.result.Generated? then Streamed(g.result.content) else StreamFailed
    }

    /** `generateStream`: streams from OpenAI when it is present, handing each
        non-empty delta to the `onChunk` sink (returned here as `delivered`, in
        call order); when OpenAI is absent or its stream throws, returns the
        content of a plain `generateText` call without passing it to the sink. */
    method GenerateStream(prompt: string, systemPrompt: Option<string>, oracle: Request -> Reply, stream: Stream)
      returns (r: Streamed, delivered: seq<string>, calls: seq<Request>)
      ensures openai ==> delivered == NonEmpty(stream.deltas)
      ensures !openai ==> delivered == []
      ensures openai && stream.Completes? ==>
                r == Streamed(Concat(delivered))
                && calls == [OpenAIStream(OpenAIModel, Messages(prompt, systemPrompt))]
      ensures !(openai && stream.Completes?) ==>
                && r == FallbackText(prompt, systemPrompt, oracle)
                && calls == (if openai then [OpenAIStream(OpenAIModel, Messages(prompt, systemPrompt))] else [])
                             + Requests(GenerateText(prompt, systemPrompt, NoOptions, oracle).tried,
                                        prompt, systemPrompt, NoOptions)
    {
      var streamCalls: seq<Request> := [];
      delivered := [];
      if openai {
        streamCalls := [OpenAIStream(OpenAIModel, Messages(prompt, systemPrompt))];
        var fullContent;
        fullContent, delivered := ConsumeStream(stream.deltas);
        if stream.Completes? {
          r, calls := Streamed(fullContent), streamCalls;
          return;
        }
      }
      var tried := GenerateText(prompt, systemPrompt, NoOptions, oracle).tried;
      calls := streamCalls + Requests(tried, prompt, systemPrompt, NoOptions);
      r := FallbackText(prompt, systemPrompt, oracle);
    }
  }

  /** The source's own shape of `generateText`: three guarded attempts in a
      row, each returning early on an accepted reply, then the error. */
  function StraightLine(c: AIClient, replies: Provider -> Reply): Attempt {
    if c.openai && Accepted(replies(OpenAI)) then
      Attempt(Generated(replies(OpenAI).text, OpenAI), [OpenAI])
    else
      var t0 := if c.openai then [OpenAI] else [];
      if c.gemini && Accepted(replies(Gemini)) then
        Attempt(Generated(replies(Gemini).text, Gemini), t0 + [Gemini])
      else
        var t1 := t0 + (if c.gemini then [Gemini] else []);
        if c.claude && Accepted(replies(Claude)) then
          Attempt(Generated(replies(Claude).text, Claude), t1 + [Claude])
        else
          Attempt(AllProvidersFailed, t1 + (if c.claude then [Claude] else []))
  }

  /** The attempt at one provider in front of the attempt at the rest. */
  function Step(c: AIClient, p: Provider, replies: Provider -> Reply, rest: Attempt): Attempt {
    if !c.Present(p) then rest
    else if Accepted(replies(p)) then Attempt(Generated(replies(p).text, p), [p])
    else Attempt(rest.result, [p] + rest.tried)
  }

  lemma CascadeStep(c: AIClient, from: nat, replies: Provider -> Reply)
    requires from < |Order|
    ensures c.Cascade(from, replies) == Step(c, Order[from], replies, c.Cascade(from + 1, replies))
  {
  }

  /** The first-success fold over the fallback order is exactly the source's
      sequence of guarded attempts. */
  lemma CascadeIsStraightLine(c: AIClient, replies: Provider -> Reply)
    ensures c.Cascade(0, replies) == StraightLine(c, replies)
  {
    assert Order[2] == Claude && Order[1] == Gemini && Order[0] == OpenAI;
    CascadeStep(c, 0, replies);
    CascadeStep(c, 1, replies);
    CascadeStep(c, 2, replies);
    var a3 := c.Cascade(3, replies);
    assert a3 == Attempt(AllProvidersFailed, []);
    var a2 := Step(c, Claude, replies, a3);
    var a1 := Step(c, Gemini, replies, a2);
    var a0 := Step(c, OpenAI, replies, a1);
    assert c.Cascade(0, replies) == a0;
    StepsAreStraightLine(c, replies, a3);
  }

  lemma StepsAreStraightLine(c: AIClient, replies: Provider -> Reply, a3: Attempt)
    requires a3 == Attempt(AllProvidersFailed, [])
    ensures Step(c, OpenAI, replies, Step(c, Gemini, replies, Step(c, Claude, replies, a3))) == StraightLine(c, replies)
  {
    var t0: seq<Provider> := if c.openai then [OpenAI] else [];
    var t1: seq<Provider> := t0 + (if c.gemini then [Gemini] else []);
    if c.openai && Accepted(replies(OpenAI)) {
    } else if c.gemini && Accepted(replies(Gemini)) {
    } else if c.claude && Accepted(replies(Claude)) {
      assert t1 + [Claude] == t0 + ((if c.gemini then [Gemini] else []) + [Claude]);
    } else {
      var t2: seq<Provider> := if c.claude then [Claude] else [];
      assert t1 + t2 == t0 + ((if c.gemini then [Gemini] else []) + t2);
    }
  }

  /** With only Claude configured and healthy, Claude's text is returned and
      neither OpenAI nor Gemini is contacted. */
  lemma OnlyClaudeConfigured(c: AIClient, prompt: string, systemPrompt: Option<string>, opts: Options,
                             oracle: Request -> Reply)
    requires !c.openai && !c.gemini && c.claude
    requires Accepted(oracle(c.RequestFor(Claude, prompt, systemPrompt, opts)))
    ensures c.GenerateText(prompt, systemPrompt, opts, oracle)
            == Attempt(Generated(oracle(c.RequestFor(Claude, prompt, systemPrompt, opts)).text, Claude), [Claude])
  {
    CascadeIsStraightLine(c, c.Replies(prompt, systemPrompt, opts, oracle));
  }

  /** When OpenAI fails (throws or returns no text) and Gemini succeeds,
      Gemini's text is returned after exactly one OpenAI call, and Claude is
      not contacted. */
  lemma GeminiAfterOpenAIFails(c: AIClient, prompt: string, systemPrompt: Option<string>, opts: Options,
                               oracle: Request -> Reply)
    requires c.openai && !Accepted(oracle(c.RequestFor(OpenAI, prompt, systemPrompt, opts)))
    requires c.gemini && Accepted(oracle(c.RequestFor(Gemini, prompt, systemPrompt, opts)))
    ensures c.GenerateText(prompt, systemPrompt, opts, oracle)
            == Attempt(Generated(oracle(c.RequestFor(Gemini, prompt, systemPrompt, opts)).text, Gemini),
                       [OpenAI, Gemini])
  {
    CascadeIsStraightLine(c, c.Replies(prompt, systemPrompt, opts, oracle));
  }

  /** With no provider configured the call fails without contacting anyone. */
  lemma NoProviderConfigured(c: AIClient, prompt: string, systemPrompt: Option<string>, opts: Options,
                             oracle: Request -> Reply)
    requires !c.openai && !c.gemini && !c.claude
    ensures c.GenerateText(prompt, systemPrompt, opts, oracle) == Attempt(AllProvidersFailed, [])
  {
    CascadeIsStraightLine(c, c.Replies(prompt, systemPrompt, opts, oracle));
  }

  /** Without options, OpenAI and Claude are asked for temperature 0.7 and at
      most 2000 tokens; Claude gets the system prompt as given and the prompt
      as its only message. */
  lemma DefaultSettings(c: AIClient, prompt: string, systemPrompt: Option<string>)
    ensures c.RequestFor(OpenAI, prompt, systemPrompt, NoOptions)
            == OpenAIChat("gpt-4o", Messages(prompt, systemPrompt), 0.7, 2000)
    ensures c.RequestFor(Claude, prompt, systemPrompt, NoOptions)
            == ClaudeMessages("claude-3-5-sonnet-20241022", systemPrompt, [Message(UserRole, prompt)], 2000, 0.7)
    ensures c.RequestFor(Gemini, prompt, systemPrompt, NoOptions)
            == GeminiContent("gemini-pro", if Given(systemPrompt) then systemPrompt.value + "\n\n" + prompt else prompt)
  {
  }

  /** The module-level `aiClientInstance` behind `getAIClient`. */
  class ClientSlot {
    var instance: AIClient?

    constructor ()
      ensures instance == null
    {
      instance := null;
    }

    /** Creates the client on the first call and returns that same client on
        every later call. */
    method GetAIClient(env: Env) returns (c: AIClient)
      modifies this
      ensures instance == c
      ensures old(instance) != null ==> c == old(instance)
      ensures old(instance) == null ==>
                && fresh(c)
                && c.openai == KeySet(env.openaiKey)
                && c.gemini == KeySet(env.geminiKey)
                && c.claude == KeySet(env.anthropicKey)
    {
      if instance == null {
        instance := new AIClient(env);
      }
      c := instance;
    }
  }
}
