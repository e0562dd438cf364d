/** The streaming halves of the four protocol formats: IR deltas to and from SSE events. */
module StreamFormats {
  import opened Seqs
  import opened Json
  import opened Sse

  datatype Format = Anthropic | OpenAIChatCompletions | OpenAIResponses | Gemini

  datatype DeltaKind =
    MessageStart | ContentStart | TextDelta | ContentEnd | MessageEnd | ToolCallDelta | Done

  datatype StreamDelta = StreamDelta(
    kind: DeltaKind, id: string, text: string, toolCallId: string, toolName: string,
    toolArgumentsDelta: string, index: int32, model: string, finishReason: string,
    inputTokens: int32, outputTokens: int32)

  /** A default-constructed delta: a text delta without text. */
  const Blank: StreamDelta := StreamDelta(TextDelta, "", "", "", "", "", 0, "", "", 0, 0)

  // ---- Serializers ----

  function DataEvent(payload: string): string {
    "data: " + payload + "\n\n"
  }

  function NamedEvent(name: string, payload: string): string {
    "event: " + name + "\n" + DataEvent(payload)
  }

  function OpenAiDelta(d: StreamDelta): map<string, Json> {
    match d.kind
    case MessageStart => map["role" := Str("assistant"), "content" := Str("")]
    case TextDelta => map["content" := CText(d.text)]
    case ToolCallDelta =>
      var fn := if d.toolName != "" then
                  map["type" := Str("function"),
                      "function" := Obj(map["name" := CText(d.toolName), "arguments" := Str("")])]
                else if d.toolArgumentsDelta != "" then
                  map["function" := Obj(map["name" := Str(""), "arguments" := CText(d.toolArgumentsDelta)])]
                else map[];
      map["tool_calls" := Arr([Obj(map["index" := Int(d.index)] + Optional("id", d.toolCallId) + fn)])]
    case _ => map[]
  }

  function OpenAiDoc(d: StreamDelta): Json {
    var choice := Obj(map["index" := Int(d.index), "delta" := Obj(OpenAiDelta(d)),
                          "finish_reason" := if d.finishReason != "" then CText(d.finishReason) else Null]);
    Obj(map["object" := Str("chat.completion.chunk"), "choices" := Arr([choice])]
        + Optional("id", d.id) + Optional("model", d.model))
  }

  function AnthropicName(k: DeltaKind): string {
    match k
    case MessageStart => "message_start"
    case ContentStart => "content_block_start"
    case TextDelta => "content_block_delta"
    case ToolCallDelta => "content_block_delta"
    case ContentEnd => "content_block_stop"
    case MessageEnd => "message_delta"
    case Done => "message_stop"
  }

  function AnthropicReason(reason: string): string {
    if reason == "" || reason == "stop" then "end_turn"
    else if reason == "tool_calls" then "tool_use"
    else reason
  }

  function AnthropicMembers(d: StreamDelta): map<string, Json> {
    match d.kind
    case MessageStart =>
      map["message" := Obj(map[
        "id" := CText(if d.id == "" then "msg_gateway" else d.id),
        "type" := Str("message"), "role" := Str("assistant"), "model" := CText(d.model),
        "usage" := Obj(map["input_tokens" := Int(d.inputTokens), "output_tokens" := Int(0)])])]
    case ContentStart =>
      var block := if d.toolName != "" then
                     map["type" := Str("tool_use"), "id" := CText(d.toolCallId),
                         "name" := CText(d.toolName), "input" := Obj(map[])]
                   else map["type" := Str("text"), "text" := Str("")];
      map["index" := Int(d.index), "content_block" := Obj(block)]
    case TextDelta =>
      map["index" := Int(d.index),
          "delta" := Obj(map["type" := Str("text_delta"), "text" := CText(d.text)])]
    case ToolCallDelta =>
      map["index" := Int(d.index),
          "delta" := Obj(map["type" := Str("input_json_delta"), "partial_json" := CText(d.toolArgumentsDelta)])]
    case ContentEnd => map["index" := Int(d.index)]
    case MessageEnd =>
      map["delta" := Obj(map["stop_reason" := CText(AnthropicReason(d.finishReason))]),
          "usage" := Obj(map["output_tokens" := Int(d.outputTokens)])]
    case Done => map[]
  }

  function AnthropicDoc(d: StreamDelta): Json {
    Obj(map["type" := Str(AnthropicName(d.kind))] + AnthropicMembers(d))
  }

  function ResponsesName(k: DeltaKind): string {
    match k
    case MessageStart => "response.created"
    case ContentStart => "response.output_item.added"
    case ToolCallDelta => "response.function_call_arguments.delta"
    case MessageEnd => "response.completed"
    case Done => "response.completed"
    case _ => "response.output_text.delta"
  }

  function ResponsesDoc(d: StreamDelta): Json {
    var extra := match d.kind
                 case TextDelta => map["delta" := CText(d.text)]
                 case ToolCallDelta => map["delta" := CText(d.toolArgumentsDelta)]
                                       + Optional("call_id", d.toolCallId) + Optional("name", d.toolName)
                 case _ => map[];
    Obj(map["type" := Str(ResponsesName(d.kind))] + extra)
  }

  function GeminiReason(reason: string): string {
    if reason == "length" || reason == "max_tokens" then "MAX_TOKENS"
    else if reason == "content_filter" then "SAFETY"
    else if reason == "recitation" then "RECITATION"
    else "STOP"
  }

  function GeminiDoc(d: StreamDelta): Json {
    var part := match d.kind
                case TextDelta => map["text" := CText(d.text)]
                case ToolCallDelta =>
                  map["functionCall" := Obj(map["name" := CText(d.toolName), "args" := Obj(map[])])]
                case _ => map["text" := Str("")];
    var finish := if d.kind == MessageEnd then map["finishReason" := Str(GeminiReason(d.finishReason))] else map[];
    var candidate := map["content" := Obj(map["role" := Str("model"), "parts" := Arr([Obj(part)])]),
                         "index" := Int(0)];
    Obj(map["candidates" := Arr([Obj(candidate + finish)])])
  }

  function Serialize(c: Codec, f: Format, d: StreamDelta): string {
    match f
    case Anthropic => NamedEvent(AnthropicName(d.kind), c.write(AnthropicDoc(d)))
    case OpenAIChatCompletions =>
      if d.kind == Done then DataEvent("[DONE]") else DataEvent(c.write(OpenAiDoc(d)))
    case OpenAIResponses =>
      // The source spells out the Done event; its text is what the writer makes of the document.
      NamedEvent(ResponsesName(d.kind), c.write(ResponsesDoc(d)))
    case Gemini => if d.kind == Done then DataEvent("[DONE]") else DataEvent(c.write(GeminiDoc(d)))
  }

  // ---- SSE field extraction ----

  /** The last `event:` and `data:` values of an event. */
  datatype Fields = Fields(event: string, data: string)

  function SkipSpaces(s: string): string {
    if s != "" && s[0] == ' ' then SkipSpaces(s[1..]) else s
  }

  function DropCr(s: string): string {
    if s != "" && s[|s| - 1] == '\r' then DropCr(s[..|s| - 1]) else s
  }

  function ScanLine(f: Fields, line: string, trimData: bool): Fields {
    if "event:" <= line then f.(event := DropCr(SkipSpaces(line[6..])))
    else if "data:" <= line then
      var payload := SkipSpaces(line[5..]);
      f.(data := if trimData then DropCr(payload) else payload)
    else f
  }

  function LineEnd(e: string, pos: nat): (r: nat)
    requires pos <= |e|
    ensures pos <= r <= |e|
  {
    match Find(e, "\n", pos) case None => |e| case Some(i) => i
  }

  function ScanFrom(e: string, pos: nat, f: Fields, trimData: bool): Fields
    decreases |e| + 1 - pos
  {
    if pos >= |e| then f
    else ScanFrom(e, LineEnd(e, pos) + 1, ScanLine(f, e[pos..LineEnd(e, pos)], trimData), trimData)
  }

  function Scan(e: string, trimData: bool): Fields {
    ScanFrom(e, 0, Fields("", ""), trimData)
  }

  lemma ScanStep(e: string, pos: nat, f: Fields, trimData: bool)
    requires pos < |e|
    ensures ScanFrom(e, pos, f, trimData)
         == ScanFrom(e, LineEnd(e, pos) + 1, ScanLine(f, e[pos..LineEnd(e, pos)], trimData), trimData)
  {
  }

  /** The line loop at the head of `is_terminal_event` (which trims CR) and `transform_event` (which does not). */
  method ScanFields(e: string, trimData: bool) returns (f: Fields)
    ensures f == Scan(e, trimData)
  {
    f := Fields("", "");
    var pos := 0;
    while pos < |e|
      invariant 0 <= pos
      invariant Scan(e, trimData) == ScanFrom(e, pos, f, trimData)
      decreases |e| - pos
    {
      var lineEnd := LineEnd(e, pos);
      ScanStep(e, pos, f, trimData);
      f := ScanLine(f, e[pos..lineEnd], trimData);
      pos := lineEnd + 1;
    }
  }

  // ---- Parsers ----

  function ParseOpenAiDoc(doc: Json): StreamDelta {
    var base := Blank.(model := Text(doc, "model"), id := Text(doc, "id"));
    if !doc.At("choices").Arr? || doc.At("choices").items == [] then base
    else
      var choice := doc.At("choices").items[0];
      var ended := base.(finishReason := Text(choice, "finish_reason"));
      var d := choice.At("delta");
      if !d.Obj? then ended
      else if d.Has("role") && d.Has("content") then ended.(kind := MessageStart)
      else if d.At("content").Str? then ended.(kind := TextDelta, text := Text(d, "content"))
      else if d.At("tool_calls").Arr? && d.At("tool_calls").items != [] then
        var tc := d.At("tool_calls").items[0];
        ended.(kind := ToolCallDelta,
               index := if tc.At("index").IsInt() then tc.At("index").n else 0,
               toolCallId := Text(tc, "id"),
               toolName := Text(tc.At("function"), "name"),
               toolArgumentsDelta := Text(tc.At("function"), "arguments"))
      else if ended.finishReason != "" then ended.(kind := MessageEnd)
      else ended
  }

  function IndexOf(doc: Json): int32 {
    if doc.At("index").IsInt() then doc.At("index").n else 0
  }

  function IntAt(j: Json, key: string): int32 {
    if j.At(key).IsInt() then j.At(key).n else 0
  }

  function ParseAnthropicDoc(event: string, doc: Json): StreamDelta {
    if event == "message_start" then
      var msg := doc.At("message");
      Blank.(kind := MessageStart, id := Text(msg, "id"), model := Text(msg, "model"),
             inputTokens := IntAt(msg.At("usage"), "input_tokens"))
    else if event == "content_block_start" then
      var block := doc.At("content_block");
      if Text(block, "type") == "tool_use" then
        Blank.(kind := ContentStart, index := IndexOf(doc),
               toolCallId := Text(block, "id"), toolName := Text(block, "name"))
      else Blank.(kind := ContentStart, index := IndexOf(doc))
    else if event == "content_block_delta" then
      var d := doc.At("delta");
      if Text(d, "type") == "text_delta" then
        Blank.(kind := TextDelta, index := IndexOf(doc), text := Text(d, "text"))
      else if Text(d, "type") == "input_json_delta" then
        Blank.(kind := ToolCallDelta, index := IndexOf(doc), toolArgumentsDelta := Text(d, "partial_json"))
      else Blank.(index := IndexOf(doc))
    else if event == "content_block_stop" then Blank.(kind := ContentEnd, index := IndexOf(doc))
    else if event == "message_delta" then
      var reason := Text(doc.At("delta"), "stop_reason");
      Blank.(kind := MessageEnd,
             finishReason := if reason == "end_turn" then "stop"
                             else if reason == "tool_use" then "tool_calls" else reason,
             outputTokens := IntAt(doc.At("usage"), "output_tokens"))
    else if event == "message_stop" then Blank.(kind := Done)
    else Blank
  }

  function ParseResponsesDoc(doc: Json): StreamDelta {
    var t := Text(doc, "type");
    if t == "response.created" then Blank.(kind := MessageStart)
    else if t == "response.output_item.added" then Blank.(kind := ContentStart)
    else if t == "response.output_text.delta" then Blank.(kind := TextDelta, text := Text(doc, "delta"))
    else if t == "response.function_call_arguments.delta" then
      Blank.(kind := ToolCallDelta, toolArgumentsDelta := Text(doc, "delta"),
             toolCallId := Text(doc, "call_id"), toolName := Text(doc, "name"))
    else if t == "response.completed" then Blank.(kind := Done)
    else if t == "response.output_text.done" || t == "response.output_item.done"
            || t == "response.content_part.done" || t == "response.content_part.added" then
      Blank.(kind := ContentEnd)
    else Blank
  }

  function GeminiEnding(cand: Json): StreamDelta {
    if !cand.At("finishReason").Str? then Blank
    else
      var reason := Text(cand, "finishReason");
      Blank.(kind := MessageEnd,
             finishReason := if reason == "MAX_TOKENS" then "length"
                             else if reason == "SAFETY" then "content_filter"
                             else if reason == "RECITATION" then "recitation" else "stop")
  }

  /** What one part of a Gemini candidate decides, if anything. */
  function GeminiPart(c: Codec, d: StreamDelta, p: Json): Option<StreamDelta> {
    if p.At("text").Str? then
      if Text(p, "text") != "" then Some(d.(kind := TextDelta, text := Text(p, "text"))) else None
    else if p.At("functionCall").Obj? then
      var fc := p.At("functionCall");
      Some(d.(kind := ToolCallDelta, toolName := Text(fc, "name"),
              toolArgumentsDelta := if fc.At("args").Obj? then c.write(fc.At("args")) else ""))
    else None
  }

  function GeminiParts(c: Codec, d: StreamDelta, parts: seq<Json>): StreamDelta {
    if parts == [] then d
    else match GeminiPart(c, d, parts[0])
         case Some(r) => r
         case None => GeminiParts(c, d, parts[1..])
  }

  /** The loop over a candidate's parts returns at the first part that decides the delta. */
  method FirstGeminiPart(c: Codec, d: StreamDelta, parts: seq<Json>) returns (r: StreamDelta)
    ensures r == GeminiParts(c, d, parts)
  {
    for i := 0 to |parts|
      invariant GeminiParts(c, d, parts) == GeminiParts(c, d, parts[i..])
    {
      var decided := GeminiPart(c, d, parts[i]);
      if decided.Some? { return decided.value; }
      assert parts[i..][1..] == parts[i + 1..];
    }
    r := d;
  }

  function ParseGeminiDoc(c: Codec, doc: Json): StreamDelta {
    if !doc.At("candidates").Arr? || doc.At("candidates").items == [] then Blank
    else
      var cand := doc.At("candidates").items[0];
      var parts := cand.At("content").At("parts");
      if parts.Arr? then GeminiParts(c, GeminiEnding(cand), parts.items) else GeminiEnding(cand)
  }

  function Parse(c: Codec, f: Format, fields: Fields): StreamDelta {
    if f.OpenAIChatCompletions? || f.Gemini? then
      if fields.data == "[DONE]" then Blank.(kind := Done) else ParseText(c, f, fields)
    else ParseText(c, f, fields)
  }

  function ParseText(c: Codec, f: Format, fields: Fields): StreamDelta {
    match c.parse(fields.data)
    case Some(Obj(members)) => ParseDoc(c, f, fields.event, Obj(members))
    case _ => Blank
  }

  function ParseDoc(c: Codec, f: Format, event: string, doc: Json): StreamDelta {
    match f
    case Anthropic => ParseAnthropicDoc(event, doc)
    case OpenAIChatCompletions => ParseOpenAiDoc(doc)
    case OpenAIResponses => ParseResponsesDoc(doc)
    case Gemini => ParseGeminiDoc(c, doc)
  }

  // ---- Streamed text survives conversion ----

  /** The text a delta carries. */
  function DeltaText(d: StreamDelta): string {
    if d.kind == TextDelta then CStr(d.text) else ""
  }

  lemma OpenAiText(d: StreamDelta)
    ensures ParseOpenAiDoc(OpenAiDoc(d)).text == DeltaText(d)
  {
    var choice := OpenAiDoc(d).At("choices").items[0];
    assert choice.At("delta") == Obj(OpenAiDelta(d));
  }

  /** An Anthropic event carries text only as a text delta. */
  lemma AnthropicTextOf(event: string, doc: Json)
    ensures ParseAnthropicDoc(event, doc).text ==
            if event == "content_block_delta" && Text(doc.At("delta"), "type") == "text_delta"
            then Text(doc.At("delta"), "text") else ""
  {
  }

  lemma AnthropicDeltaText(d: StreamDelta)
    requires d.kind == TextDelta
    ensures Text(AnthropicDoc(d).At("delta"), "type") == "text_delta"
    ensures Text(AnthropicDoc(d).At("delta"), "text") == CStr(d.text)
  {
    assert AnthropicDoc(d).At("delta") == Obj(map["type" := Str("text_delta"), "text" := CText(d.text)]);
  }

  lemma AnthropicText(d: StreamDelta)
    ensures ParseAnthropicDoc(AnthropicName(d.kind), AnthropicDoc(d)).text == DeltaText(d)
  {
    AnthropicTextOf(AnthropicName(d.kind), AnthropicDoc(d));
    match d.kind {
      case TextDelta => AnthropicDeltaText(d);
      case ToolCallDelta => assert Text(AnthropicDoc(d).At("delta"), "type") == "input_json_delta";
      case _ => assert AnthropicName(d.kind) != "content_block_delta";
    }
  }

  /** A Responses event carries text only as an output text delta. */
  lemma ResponsesTextOf(doc: Json)
    ensures ParseResponsesDoc(doc).text ==
            if Text(doc, "type") == "response.output_text.delta" then Text(doc, "delta") else ""
  {
  }

  lemma ResponsesText(d: StreamDelta)
    ensures ParseResponsesDoc(ResponsesDoc(d)).text == DeltaText(d)
  {
    var doc, name := ResponsesDoc(d), ResponsesName(d.kind);
    ResponsesTextOf(doc);
    ResponsesNamesPlain(d.kind);
    PlainNameIsLine(name);
    assert Text(doc, "type") == name;
    match d.kind {
      case TextDelta => assert doc.At("delta") == CText(d.text);
      case ContentEnd => assert !doc.Has("delta");
      case _ => assert name != "response.output_text.delta";
    }
  }

  /** Fit for an `event:` line. */
  predicate PlainName(name: string) {
    name != "" && forall i | 0 <= i < |name| :: name[i] > ' '
  }

  lemma PlainNameIsLine(name: string)
    requires PlainName(name)
    ensures OneLine(name) && '\0' !in name
  {
  }

  lemma AnthropicNamesPlain(k: DeltaKind)
    ensures PlainName(AnthropicName(k))
  {
    match k case MessageStart => case ContentStart => case TextDelta => case ToolCallDelta =>
            case ContentEnd => case MessageEnd => case Done =>
  }

  lemma ResponsesNamesPlain(k: DeltaKind)
    ensures PlainName(ResponsesName(k))
  {
    if k.MessageStart? || k.ContentStart? || k.TextDelta? {
      FirstNamesPlain(k);
    } else {
      LastNamesPlain(k);
    }
  }

  lemma FirstNamesPlain(k: DeltaKind)
    requires k.MessageStart? || k.ContentStart? || k.TextDelta?
    ensures PlainName(ResponsesName(k))
  {
    match k case MessageStart => case ContentStart => case TextDelta =>
  }

  lemma LastNamesPlain(k: DeltaKind)
    requires !k.MessageStart? && !k.ContentStart? && !k.TextDelta?
    ensures PlainName(ResponsesName(k))
  {
    match k case ToolCallDelta => case ContentEnd => case MessageEnd => case Done =>
  }

  lemma GeminiText(c: Codec, d: StreamDelta)
    ensures ParseGeminiDoc(c, GeminiDoc(d)).text == DeltaText(d)
  {
    var cand := GeminiDoc(d).At("candidates").items[0];
    var parts := cand.At("content").At("parts").items;
    assert GeminiParts(c, GeminiEnding(cand), parts[1..]) == GeminiEnding(cand);
  }

  /** A line ends where its first LF is. */
  lemma {:induction false} FindLf(e: string, pos: nat, n: nat)
    requires pos <= n < |e| && e[n] == '\n'
    requires forall i | pos <= i < n :: e[i] != '\n'
    ensures Find(e, "\n", pos) == Some(n)
    decreases n - pos
  {
    assert e[pos..pos + 1][0] == e[pos];
    if pos < n { FindLf(e, pos + 1, n); }
  }

  lemma DataLine(f: Fields, payload: string, trimData: bool)
    requires OneLine(payload) && payload != "" && payload[0] != ' '
    ensures ScanLine(f, "data: " + payload, trimData) == f.(data := payload)
  {
    var line := "data: " + payload;
    assert "data:" <= line && line[0] == 'd';
    assert line[5..] == " " + payload && (" " + payload)[1..] == payload;
    assert SkipSpaces(line[5..]) == SkipSpaces(payload) == payload;
    assert payload[|payload| - 1] != '\r';
  }

  lemma ScanBlank(e: string, pos: nat, f: Fields, trimData: bool)
    requires |e| == pos + 1 && e[pos] == '\n'
    ensures ScanFrom(e, pos, f, trimData) == f
  {
    FindLf(e, pos, pos);
    assert e[pos..pos] == "";
  }

  /** The data line of an event, from wherever it starts, gives the payload back. */
  lemma ScanData(e: string, pos: nat, payload: string, f: Fields, trimData: bool)
    requires pos <= |e| && e[pos..] == DataEvent(payload)
    requires OneLine(payload) && payload != "" && payload[0] != ' '
    ensures ScanFrom(e, pos, f, trimData) == f.(data := payload)
  {
    var line := "data: " + payload;
    var n := pos + |line|;
    assert e[pos..] == line + "\n\n";
    forall i | pos <= i < n ensures e[i] == line[i - pos] && e[i] != '\n' {
      assert e[i] == e[pos..][i - pos];
    }
    assert e[n] == e[pos..][|line|] && e[n + 1] == e[pos..][|line| + 1] && |e| == n + 2;
    FindLf(e, pos, n);
    assert e[pos..n] == line;
    DataLine(f, payload, trimData);
    ScanBlank(e, n + 1, f.(data := payload), trimData);
  }

  lemma ScanNamed(name: string, payload: string, trimData: bool)
    requires PlainName(name)
    requires OneLine(payload) && payload != "" && payload[0] != ' '
    ensures Scan(NamedEvent(name, payload), trimData) == Fields(name, payload)
  {
    PlainNameIsLine(name);
    var e, line := NamedEvent(name, payload), "event: " + name;
    var n := |line|;
    assert e == line + "\n" + DataEvent(payload);
    forall i | 0 <= i < n ensures e[i] != '\n' {
      assert e[i] == line[i];
    }
    FindLf(e, 0, n);
    assert e[0..n] == line && "event:" <= line;
    assert line[6..] == " " + name && SkipSpaces(line[6..]) == SkipSpaces(name) == name;
    assert name[|name| - 1] != '\r';
    assert e[n + 1..] == DataEvent(payload);
    ScanData(e, n + 1, payload, Fields(name, ""), trimData);
  }

  lemma ScanUnnamed(payload: string, trimData: bool)
    requires OneLine(payload) && payload != "" && payload[0] != ' '
    ensures Scan(DataEvent(payload), trimData) == Fields("", payload)
  {
    var e := DataEvent(payload);
    assert e[0..] == e;
    ScanData(e, 0, payload, Fields("", ""), trimData);
  }

  lemma DataIsOneEvent(payload: string)
    requires OneLine(payload)
    ensures OneEvent(DataEvent(payload))
  {
    var line := "data: " + payload;
    LinesAreOneEvent("", line);
    assert DataEvent(payload) == "" + line + "\n\n";
  }

  lemma NamedIsOneEvent(name: string, payload: string)
    requires PlainName(name) && OneLine(payload)
    ensures OneEvent(NamedEvent(name, payload))
  {
    PlainNameIsLine(name);
    var head, line := "event: " + name + "\n", "data: " + payload;
    assert head[..|head| - 1] == "event: " + name;
    LinesAreOneEvent(head, line);
    assert NamedEvent(name, payload) == head + line + "\n\n";
  }

  /** A serialized delta is exactly one SSE event. */
  lemma SerializedIsOneEvent(c: Codec, f: Format, d: StreamDelta)
    requires Lawful(c)
    ensures OneEvent(Serialize(c, f, d))
  {
    AnthropicNamesPlain(d.kind);
    ResponsesNamesPlain(d.kind);
    match f {
      case Anthropic => NamedIsOneEvent(AnthropicName(d.kind), c.write(AnthropicDoc(d)));
      case OpenAIResponses => NamedIsOneEvent(ResponsesName(d.kind), c.write(ResponsesDoc(d)));
      case OpenAIChatCompletions => DataIsOneEvent(if d.kind == Done then "[DONE]" else c.write(OpenAiDoc(d)));
      case Gemini => DataIsOneEvent(if d.kind == Done then "[DONE]" else c.write(GeminiDoc(d)));
    }
  }

  /** Reading a serialized delta back gives its text, whatever its kind. */
  lemma SerializedText(c: Codec, f: Format, d: StreamDelta)
    requires Lawful(c)
    ensures Parse(c, f, Scan(Serialize(c, f, d), false)).text == DeltaText(d)
  {
    AnthropicNamesPlain(d.kind);
    ResponsesNamesPlain(d.kind);
    match f {
      case Anthropic =>
        AnthropicText(d);
        ReadsNamed(c, f, AnthropicName(d.kind), AnthropicDoc(d));
      case OpenAIResponses =>
        ResponsesText(d);
        ReadsNamed(c, f, ResponsesName(d.kind), ResponsesDoc(d));
      case OpenAIChatCompletions =>
        OpenAiText(d);
        if d.kind == Done { ScanUnnamed("[DONE]", false); } else { ReadsUnnamed(c, f, OpenAiDoc(d)); }
      case Gemini =>
        GeminiText(c, d);
        if d.kind == Done { ScanUnnamed("[DONE]", false); } else { ReadsUnnamed(c, f, GeminiDoc(d)); }
    }
  }

  lemma ReadsNamed(c: Codec, f: Format, name: string, doc: Json)
    requires Lawful(c) && doc.Obj?
    requires PlainName(name)
    ensures Parse(c, f, Scan(NamedEvent(name, c.write(doc)), false)) == ParseDoc(c, f, name, doc)
  {
    ScanNamed(name, c.write(doc), false);
    assert c.write(doc)[0] != '[';
  }

  lemma ReadsUnnamed(c: Codec, f: Format, doc: Json)
    requires Lawful(c) && doc.Obj?
    ensures Parse(c, f, Scan(DataEvent(c.write(doc)), false)) == ParseDoc(c, f, "", doc)
  {
    ScanUnnamed(c.write(doc), false);
    assert c.write(doc)[0] != '[';
  }

  /** The text a client of format `f` reads from a byte stream. */
  function StreamText(c: Codec, f: Format, bytes: string): string {
    Flatten(Map(e => EventText(c, f, e), Events(bytes)))
  }

  function EventText(c: Codec, f: Format, e: string): string {
    Parse(c, f, Scan(e, false)).text
  }

  lemma ReadsBack<D>(ser: D -> string, read: string -> string, text: D -> string, ds: seq<D>)
    requires forall d | d in ds :: OneEvent(ser(d)) && read(ser(d)) == text(d)
    ensures var events := Map(ser, ds);
            && Events(Flatten(events)) == events
            && Rest(Flatten(events)) == ""
            && Map(read, events) == Map(text, ds)
  {
    FramesBack(Map(ser, ds));
  }

  /** For every delta sequence and every target, the client reads exactly the text of the text deltas. */
  lemma StreamedTextSurvives(c: Codec, f: Format, ds: seq<StreamDelta>)
    requires Lawful(c)
    ensures var events := Map(d => Serialize(c, f, d), ds);
            && Events(Flatten(events)) == events
            && Rest(Flatten(events)) == ""
            && StreamText(c, f, Flatten(events)) == Flatten(Map(DeltaText, ds))
  {
    var ser, read := (d: StreamDelta) => Serialize(c, f, d), (e: string) => EventText(c, f, e);
    forall d | d in ds ensures OneEvent(ser(d)) && read(ser(d)) == DeltaText(d) {
      SerializedIsOneEvent(c, f, d);
      SerializedText(c, f, d);
    }
    ReadsBack(ser, read, DeltaText, ds);
  }
}
