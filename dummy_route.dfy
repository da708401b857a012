/**
 * The demo endpoint `POST /api/dummy` (app/api/dummy/route.ts) as a pure function
 * from what the handler observes to the JSON body it answers with. The request body,
 * the API key, the two upstream chat-completion calls and what they yield are inputs.
 */
module DummyRoute {
  import opened Wrappers
  import opened JsString
  import opened ChatTypes

  /** A thrown error: its `message` and what `String(err)` prints. */
  datatype Thrown = Thrown(message: string, shown: string)

  /** Outcome of `req.json()`: the `text` field (possibly absent), or a parse error. */
  datatype Body = Body(text: Option<string>) | BadBody(error: Thrown)

  /** Outcome of the first upstream call (the reply). */
  datatype Completion =
    | CompletionOk(content: string)        // `choices[0].message.content || ''`
    | CompletionNotOk(errorText: string)   // `!completion.ok`, with `await completion.text()`
    | CompletionFailed(error: Thrown)      // the fetch or the body parse threw

  /**
   * Everything the handler observes. `apiKey` is "" when the variable is unset.
   * `parsedSources` is the `sources` array of the second call, or None when that
   * call threw, its content did not parse, or `sources` was not an array.
   */
  datatype Request = Request(body: Body, apiKey: string, completion: Completion, parsedSources: Option<seq<SourceItem>>)

  /** The HTTP status and the JSON body; `sources` is absent on the fallback branches. */
  datatype Response = Response(status: int, reasoning: string, reply: string, sources: Option<seq<SourceItem>>)

  const StatusOk := 200
  const SliceLimit := 120     // `slice(0, 120)`: the question echoed in the reasoning, the upstream error text
  const ReasoningLimit := 200
  const MaxSources := 5

  const ThinkingAboutPrefix := "Thinking about: \""
  const UpstreamErrorPrefix := "Demo response (fallback). Upstream error: "
  const ErrorFallbackPrefix := "Demo response (error fallback): "
  /** The literal of route.ts:122 as its bytes read: "Thinking" followed by U+00E2 U+20AC U+00A6. */
  const ErrorReasoning := "Thinking\U{00E2}\U{20AC}\U{00A6}"

  /** The five sources answered when no API key is configured. */
  const NoKeySources := [
    SourceItem("AI SDK", "https://ai-sdk.dev", "The AI Toolkit for TypeScript", "AI SDK streamlines LLM apps with sensible defaults."),
    SourceItem("Vercel", "https://vercel.com", "Frontend cloud", "Deploy previews and global edge network."),
    SourceItem("Next.js", "https://nextjs.org", "React framework", "Hybrid static & server rendering."),
    SourceItem("DeepSeek", "https://deepseek.com", "Reasoning model provider", "Reasoning-first models for complex tasks."),
    SourceItem("OpenAI", "https://openai.com", "Models and APIs", "GPT models for text and multimodal.")
  ]

  /** The five sources substituted when the second upstream call gives none. */
  const FallbackSources := [
    SourceItem("AI SDK", "https://ai-sdk.dev", "The AI Toolkit for TypeScript", "AI SDK streamlines LLM apps."),
    SourceItem("Vercel", "https://vercel.com", "Frontend cloud", "Global edge network."),
    SourceItem("Next.js", "https://nextjs.org", "React framework", "Hybrid rendering."),
    SourceItem("OpenAI", "https://openai.com", "Models and APIs", "GPT models."),
    SourceItem("MDN", "https://developer.mozilla.org", "Web docs", "Authoritative web platform docs.")
  ]

  /** `${text}` in a template: an absent field prints as "undefined". */
  function Shown(text: Option<string>): string {
    text.GetOr("undefined")
  }

  /** How many characters of the question the reasoning echoes: the first 120, or all of a shorter one. */
  function Echoed(text: Option<string>): nat {
    if text.None? then 0 else if |text.value| < SliceLimit then |text.value| else SliceLimit
  }

  /** `Thinking about: "${text?.slice(0, 120) || ''}"`: the quoted question, cut to its first 120 characters. */
  function ThinkingAbout(text: Option<string>): (r: string)
    ensures ThinkingAboutPrefix <= r && |r| > |ThinkingAboutPrefix| && r[|r| - 1] == '"'
    ensures |r| == |ThinkingAboutPrefix| + Echoed(text) + 1 <= |ThinkingAboutPrefix| + SliceLimit + 1
    ensures text.Some? ==> r[|ThinkingAboutPrefix|..|r| - 1] <= text.value
  {
    var echoed := if text.Some? then Take(text.value, SliceLimit) else "";
    ThinkingAboutPrefix + echoed + "\""
  }

  /** Branch without an API key (route.ts:8-48). */
  function NoKeyResponse(text: Option<string>): (r: Response)
    ensures r.status == StatusOk && r.reasoning == ThinkingAbout(text)
    ensures r.sources == Some(NoKeySources)
  {
    Response(StatusOk, ThinkingAbout(text),
      "Here is a demo answer to: \"" + Shown(text) +
      "\"\n\n- Key point 1\n- Key point 2\n\nThis is placeholder content generated locally.",
      Some(NoKeySources))
  }

  /** Branch for an upstream answer that is not ok (route.ts:66-74). */
  function UpstreamErrorResponse(text: Option<string>, errorText: string): (r: Response)
    ensures r.status == StatusOk && r.sources.None?
    ensures UpstreamErrorPrefix <= r.reply
    ensures r.reply[|UpstreamErrorPrefix|..] <= errorText
    ensures |r.reply| == |UpstreamErrorPrefix| + (if |errorText| < SliceLimit then |errorText| else SliceLimit)
    ensures r.reasoning == ThinkingAbout(text)
  {
    Response(StatusOk, ThinkingAbout(text), UpstreamErrorPrefix + Take(errorText, SliceLimit), None)
  }

  /**
   * The `sources` array answered on the success path (route.ts:85-116): the parsed
   * sources capped at five, or the five fallback entries when there are none.
   */
  function SourcesFor(parsed: Option<seq<SourceItem>>): (r: seq<SourceItem>)
    ensures 1 <= |r| <= MaxSources
    ensures parsed.Some? && parsed.value != [] ==> r == Take(parsed.value, MaxSources) && r <= parsed.value
    ensures parsed.None? || parsed.value == [] ==> r == FallbackSources
  {
    var capped := if parsed.Some? then Take(parsed.value, MaxSources) else [];
    if |capped| == 0 then FallbackSources else capped
  }

  /**
   * Success path (route.ts:77-118): the first line of the completion is the reasoning,
   * the remaining lines (joined and trimmed) are the reply, and the sources are attached.
   */
  function CompletionResponse(text: Option<string>, full: string, parsed: Option<seq<SourceItem>>): (r: Response)
    ensures r.status == StatusOk && r.sources == Some(SourcesFor(parsed))
    ensures r.reasoning != "" && |r.reasoning| <= ReasoningLimit
    ensures r.reply == "" <==> full == ""
  {
    var lines := Split(full, '\n');
    var firstLine := lines[0];
    var head := Take(firstLine, ReasoningLimit);
    var reasoning := if head != "" then head else ThinkingAbout(text);
    var rest := Trim(Join(lines[1..], '\n'));
    var reply := if rest != "" then rest else full;
    assert reply == "" ==> full == "";
    assert full == "" ==> lines == [""] && rest == "";
    Response(StatusOk, reasoning, reply, Some(SourcesFor(parsed)))
  }

  /** The catch-all branch (route.ts:119-127): `String(err?.message || err)`. */
  function ErrorResponse(error: Thrown): (r: Response)
    ensures r.status == StatusOk && r.sources.None? && r.reasoning == ErrorReasoning
    ensures ErrorFallbackPrefix <= r.reply
    ensures r.reply[|ErrorFallbackPrefix|..] == if error.message != "" then error.message else error.shown
  {
    var detail := if error.message != "" then error.message else error.shown;
    Response(StatusOk, ErrorReasoning, ErrorFallbackPrefix + detail, None)
  }

  /**
   * POST /api/dummy. Every branch answers 200, any `sources` has one to five entries,
   * the reasoning is never empty, and the reply is empty only for an empty completion.
   */
  function Post(req: Request): (r: Response)
    ensures r.status == StatusOk
    ensures r.sources.Some? ==> 1 <= |r.sources.value| <= MaxSources
    ensures r.reasoning != ""
    ensures r.reply == "" <==> req.body.Body? && req.apiKey != "" && req.completion == CompletionOk("")
  {
    match req.body
    case BadBody(e) => ErrorResponse(e)
    case Body(text) =>
      if req.apiKey == "" then NoKeyResponse(text)
      else
        match req.completion
        case CompletionFailed(e) => ErrorResponse(e)
        case CompletionNotOk(msg) => UpstreamErrorResponse(text, msg)
        case CompletionOk(full) => CompletionResponse(text, full, req.parsedSources)
  }

  /** Without a key the reply quotes the whole question. */
  lemma NoKeyReplyQuotesText(text: string)
    ensures Contains(NoKeyResponse(Some(text)).reply, text)
    ensures |NoKeyResponse(Some(text)).sources.value| == 5
  {
    var reply := NoKeyResponse(Some(text)).reply;
    var k := |"Here is a demo answer to: \""|;
    assert reply[k..k + |text|] == text;
    assert OccursAt(reply, text, k);
  }

  /**
   * Without a key and without a question, the reply reads as if the question were
   * "undefined", as `${text}` prints it, and so quotes "undefined".
   */
  lemma NoKeyReplyWithoutQuestion()
    ensures NoKeyResponse(None).reply == NoKeyResponse(Some("undefined")).reply
    ensures Contains(NoKeyResponse(None).reply, "undefined")
  {
    NoKeyReplyQuotesText("undefined");
  }

  /**
   * The reasoning is the completion's first line cut to 200 characters, or the
   * `Thinking about:` text when that line is empty.
   */
  lemma ReasoningIsFirstLine(text: Option<string>, full: string, parsed: Option<seq<SourceItem>>)
    ensures var first := if '\n' in full then full[..IndexOf(full, '\n')] else full;
      CompletionResponse(text, full, parsed).reasoning ==
        if first == "" then ThinkingAbout(text) else Take(first, ReasoningLimit)
  {
    FirstPieceIsPrefix(full, '\n');
  }

  /** A one-line completion is the reply as it stands. */
  lemma SingleLineReplyIsContent(text: Option<string>, full: string, parsed: Option<seq<SourceItem>>)
    requires '\n' !in full
    ensures CompletionResponse(text, full, parsed).reply == full
  {
  }

  /** A multi-line completion answers the trimmed text after the first newline, unless that is blank. */
  lemma MultiLineReplyIsRest(text: Option<string>, full: string, parsed: Option<seq<SourceItem>>)
    requires '\n' in full
    ensures var rest := Trim(full[IndexOf(full, '\n') + 1..]);
      CompletionResponse(text, full, parsed).reply == if rest != "" then rest else full
  {
    RestPiecesJoin(full, '\n');
  }

  /** The first line and the rest, put back together, are the whole completion. */
  lemma ReasoningAndRestRebuildContent(full: string)
    requires '\n' in full
    ensures var lines := Split(full, '\n');
      lines[0] + "\n" + Join(lines[1..], '\n') == full
  {
    var k := IndexOf(full, '\n');
    var lines := Split(full, '\n');
    assert lines == [full[..k]] + Split(full[k + 1..], '\n');
    JoinSplit(full, '\n');
    assert Join(lines, '\n') == lines[0] + ['\n'] + Join(lines[1..], '\n');
  }
}
