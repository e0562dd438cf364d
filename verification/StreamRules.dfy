/**
 * What the streaming pipe does with one event: its form for the client, the usage and terminal
 * marks it leaves, whether the content policy skips it, and the error sent in place of a refused one.
 */
module StreamRules {
  import opened Seqs
  import opened Json
  import opened Sse
  import opened StreamFormats

  datatype Mode = Passthrough | AnthropicToOpenAI | OpenAIToAnthropic | GeminiCompat | CrossProtocol

  datatype Route = Route(codec: Codec, mode: Mode, source: Format, target: Format)

  /** The fields of a result that observing events moves. */
  datatype Marks = Marks(
    inputTokens: int32, outputTokens: int32, cacheCreateTokens: int32, cacheReadTokens: int32,
    reasoningTokens: int32, malformedUsage: bool, terminalEventSeen: bool, providerUsageJson: string)

  const NoMarks: Marks := Marks(0, 0, 0, 0, 0, false, false, "")

  datatype StreamResult = StreamResult(
    marks: Marks, bytesForwarded: nat, completed: bool, incomplete: bool, providerDisconnect: bool,
    timedOut: bool, clientDisconnect: bool, policyBlocked: bool, policyFailedClosed: bool,
    policyErrorCode: string, policyMessage: string)

  const FreshResult: StreamResult := StreamResult(NoMarks, 0, false, false, false, false, false, false, false, "", "")

  datatype Disposition = Allow | Block | FailClosed
  datatype Decision = Decision(disposition: Disposition, errorCode: string, message: string)

  const TOO_LARGE: Decision :=
    Decision(FailClosed, "content_policy_payload_too_large",
             "A streaming response event exceeded the content policy limit")

  function ErrorCode(d: Decision): string {
    if d.errorCode != "" then d.errorCode
    else if d.disposition == Block then "content_policy_blocked" else "content_policy_unavailable"
  }

  function ErrorMessage(d: Decision): string {
    if d.message != "" then d.message
    else if d.disposition == Block then "Provider response was withheld by the active content policy"
    else "Provider response could not be cleared for delivery"
  }

  /** The pipe's view of a route. */
  datatype Rules = Rules(
    form: string -> string,
    observe: (Marks, string) -> Marks,
    exempt: string -> bool,
    error: (string, string) -> string)

  /** The counters only grew, and a terminal mark was added exactly when `ended`. */
  predicate Observed(before: Marks, after: Marks, ended: bool) {
    && after.terminalEventSeen == (before.terminalEventSeen || ended)
    && before.inputTokens <= after.inputTokens
    && before.outputTokens <= after.outputTokens
    && before.cacheCreateTokens <= after.cacheCreateTokens
    && before.cacheReadTokens <= after.cacheReadTokens
    && before.reasoningTokens <= after.reasoningTokens
  }

  /** Observing an event lowers no counter, and marks exactly the `terminal` events. */
  ghost predicate Honest(rules: Rules, terminal: string -> bool) {
    forall m, e :: Observed(m, rules.observe(m, e), terminal(e))
  }

  function RulesOf(c: Route, policySet: bool): Rules {
    Rules(e => ClientForm(c, policySet, e), (m, e) => Observe(c, m, e), e => NeedsNoPolicy(c, e),
          (code, message) => PolicyErrorEvent(c, code, message))
  }

  // ---- The content policy's view of an event ----

  /** `[DONE]` and Anthropic's `message_stop` carry no user-visible text and are not evaluated. */
  predicate NeedsNoPolicy(c: Route, event: string) {
    || Contains(event, "data: [DONE]")
    || (c.source == Anthropic && Contains(event, "event: message_stop"))
  }

  const HEX: string := "0123456789abcdef"

  function EscapeChar(ch: char): string {
    if ch == '"' then "\\\""
    else if ch == '\\' then "\\\\"
    else if ch == '\U{0008}' then "\\b"
    else if ch == '\U{000C}' then "\\f"
    else if ch == '\n' then "\\n"
    else if ch == '\r' then "\\r"
    else if ch == '\t' then "\\t"
    else if ch < ' ' then "\\u00" + [HEX[ch as int / 16], HEX[ch as int % 16]]
    else [ch]
  }

  function JsonQuote(s: string): string {
    "\"" + Flatten(Map(EscapeChar, s)) + "\""
  }

  /** The quoting loop, for any way to escape a character. */
  method Escape(escape: char -> string, s: string, start: string) returns (quoted: string)
    ensures quoted == start + Flatten(Map(escape, s))
  {
    quoted := start;
    for i := 0 to |s|
      invariant quoted == start + Flatten(Map(escape, s[..i]))
    {
      FlattenMapSnoc(escape, s, i);
      Assoc(start, Flatten(Map(escape, s[..i])), escape(s[i]));
      quoted := quoted + escape(s[i]);
    }
    assert s[..|s|] == s;
  }

  method Quote(s: string) returns (quoted: string)
    ensures quoted == JsonQuote(s)
  {
    quoted := Escape(EscapeChar, s, "\"");
    quoted := quoted + "\"";
  }

  /** The `event:` line of a policy error, if the client's format has one. */
  function ErrorHead(target: Format): string {
    match target
    case Anthropic => "event: error\n"
    case OpenAIResponses => "event: response.failed\n"
    case _ => ""
  }

  /** The payload up to the error code. */
  function ErrorOpen(target: Format): string {
    match target
    case Anthropic => "data: {\"type\":\"error\",\"error\":{\"type\":"
    case OpenAIResponses =>
      "data: {\"type\":\"response.failed\"," + "\"response\":{\"status\":\"failed\"," + "\"error\":{\"code\":"
    case _ => "data: {\"error\":{\"type\":"
  }

  function ErrorClose(target: Format): string {
    if target == OpenAIResponses then "}}}" else "}}"
  }

  function PolicyErrorEvent(c: Route, errorCode: string, errorMessage: string): string {
    ErrorHead(c.target) + ErrorOpen(c.target) + JsonQuote(errorCode) + ",\"message\":"
    + JsonQuote(errorMessage) + ErrorClose(c.target) + "\n\n"
  }

  // ---- Usage and terminal events ----

  predicate ValidCount(j: Json) {
    j.Int? && 0 <= j.n <= INT_MAX
  }

  const COUNT_FIELDS: seq<string> := [
    "input_tokens", "prompt_tokens", "output_tokens", "completion_tokens", "cache_creation_input_tokens",
    "cache_read_input_tokens", "promptTokenCount", "candidatesTokenCount", "cachedContentTokenCount",
    "reasoning_tokens", "thoughtsTokenCount"]

  predicate InvalidCounts(usage: Json) {
    || (exists k | k in COUNT_FIELDS :: usage.Has(k) && !ValidCount(usage.At(k)))
    || (exists d | d in ["prompt_tokens_details", "input_tokens_details", "output_tokens_details"] ::
          usage.Has(d) && (!usage.At(d).Obj?
                           || exists k | k in ["cached_tokens", "reasoning_tokens"] ::
                                usage.At(d).Has(k) && !ValidCount(usage.At(d).At(k))))
  }

  /** static_cast<int> of a 64-bit integer. */
  function Wrap32(n: int): (r: int32)
    ensures INT_MIN <= n <= INT_MAX ==> r == n
  {
    (n + 0x8000_0000) % 0x1_0000_0000 - 0x8000_0000
  }

  function Counted(j: Json): int32 {
    if j.IsInt64() then Wrap32(j.n) else 0
  }

  function Grow(count: int32, usage: Json, key: string): (r: int32)
    ensures r >= count
  {
    if usage.Has(key) && Counted(usage.At(key)) > count then Counted(usage.At(key)) else count
  }

  function SkipBlanks(s: string, i: nat): (r: nat)
    requires i <= |s|
    ensures i <= r <= |s|
    decreases |s| - i
  {
    if i < |s| && (s[i] == ' ' || s[i] == '\t') then SkipBlanks(s, i + 1) else i
  }

  /** The first data payload of an event, as the usage extraction reads it. */
  function FirstData(event: string): Option<string> {
    match Find(event, "data:", 0)
    case None => None
    case Some(i) =>
      var start := SkipBlanks(event, i + 5);
      Some(DropCr(event[start..LineEnd(event, start)]))
  }

  function UsageOf(doc: Json): Json {
    if doc.At("usage").Obj? then doc.At("usage")
    else if doc.At("usageMetadata").Obj? then doc.At("usageMetadata")
    else if doc.At("message").At("usage").Obj? then doc.At("message").At("usage")
    else if doc.At("response").At("usage").Obj? then doc.At("response").At("usage")
    else Null
  }

  /** The usage object an event carries, if any. */
  function EventUsage(c: Route, event: string): Option<Json> {
    match FirstData(event)
    case None => None
    case Some(data) =>
      if data == "" || data == "[DONE]" then None
      else match c.codec.parse(data)
           case Some(Obj(members)) =>
             var usage := UsageOf(Obj(members));
             if usage.Obj? then Some(usage) else None
           case _ => None
  }

  function Truncate(s: string, n: nat): string {
    if |s| > n then s[..n] else s
  }

  function AddUsage(c: Route, m: Marks, u: Json): Marks {
    m.(malformedUsage := InvalidCounts(u),
       inputTokens := Grow(Grow(Grow(m.inputTokens, u, "input_tokens"), u, "prompt_tokens"), u, "promptTokenCount"),
       outputTokens := Grow(Grow(Grow(m.outputTokens, u, "output_tokens"), u, "completion_tokens"),
                            u, "candidatesTokenCount"),
       cacheCreateTokens := Grow(m.cacheCreateTokens, u, "cache_creation_input_tokens"),
       cacheReadTokens := Grow(Grow(m.cacheReadTokens, u, "cache_read_input_tokens"), u, "cachedContentTokenCount"),
       reasoningTokens := Grow(Grow(Grow(m.reasoningTokens, u, "reasoning_tokens"), u, "thoughtsTokenCount"),
                               u.At("output_tokens_details"), "reasoning_tokens"),
       providerUsageJson := Truncate(c.codec.write(u), 1024 * 1024))
  }

  predicate EndsItem(item: Json, key: string) {
    Text(item, key) != ""
  }

  predicate AnyEnds(items: Json, key: string) {
    items.Arr? && exists i | 0 <= i < |items.items| :: EndsItem(items.items[i], key)
  }

  predicate Terminal(c: Route, event: string) {
    var f := Scan(event, true);
    if c.source == Anthropic then f.event == "message_stop"
    else if f.data == "[DONE]" then true
    else match c.codec.parse(f.data)
         case Some(Obj(members)) =>
           var doc := Obj(members);
           (match c.source
            case OpenAIResponses => Text(doc, "type") == "response.completed"
            case OpenAIChatCompletions => AnyEnds(doc.At("choices"), "finish_reason")
            case Gemini => AnyEnds(doc.At("candidates"), "finishReason")
            case Anthropic => false)
         case _ => false
  }

  /** The scan over choices or candidates that returns at the first finish reason. */
  method HasFinish(items: Json, key: string) returns (found: bool)
    requires items.Arr?
    ensures found == AnyEnds(items, key)
  {
    for i := 0 to |items.items|
      invariant forall k | 0 <= k < i :: !EndsItem(items.items[k], key)
    {
      if EndsItem(items.items[i], key) { return true; }
    }
    found := false;
  }

  function Note(c: Route, m: Marks, usage: Option<Json>, ended: bool): Marks {
    var counted := if usage.Some? then AddUsage(c, m, usage.value) else m;
    if ended then counted.(terminalEventSeen := true) else counted
  }

  /** The usage of an event, where the mode of the pipe looks for one. */
  function NotedUsage(c: Route, event: string): Option<Json> {
    if ExtractsUsage(c, event) then EventUsage(c, event) else None
  }

  function Observe(c: Route, m: Marks, event: string): Marks {
    Note(c, m, NotedUsage(c, event), Terminal(c, event))
  }

  // ---- The client's form of an event ----

  function TransformEvent(c: Route, event: string): string {
    var f := Scan(event, false);
    if f.data == "" then event
    else if c.mode == CrossProtocol || c.source != c.target then
      Serialize(c.codec, c.target, Parse(c.codec, c.source, f))
    else match c.mode
         case AnthropicToOpenAI =>
           Serialize(c.codec, OpenAIChatCompletions, Parse(c.codec, Anthropic, f))
         case OpenAIToAnthropic =>
           Serialize(c.codec, Anthropic, Parse(c.codec, OpenAIChatCompletions, f))
         case GeminiCompat =>
           Serialize(c.codec, OpenAIChatCompletions, Parse(c.codec, Gemini, f))
         case _ => event
  }

  /** What the client is to receive for an event: nothing when raw bytes were passed through already. */
  function ClientForm(c: Route, policySet: bool, event: string): string {
    if c.mode != Passthrough then TransformEvent(c, event) else if policySet then event else ""
  }

  predicate ExtractsUsage(c: Route, event: string) {
    c.mode == Passthrough
    || Contains(event, "\"usage\"") || Contains(event, "\"usageMetadata\"") || Contains(event, "message_stop")
  }
}
