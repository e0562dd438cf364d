/**
 * Non-streaming chat responses in the four formats: how the gateway reads one, and how it writes
 * one for another format.
 */
module Responses {
  import opened Seqs
  import opened Json
  import opened StreamFormats

  datatype FinishReason = Stop | Length | ToolCalls | ContentFilter | Safety | Recitation | Unknown

  datatype ToolCall = ToolCall(id: string, name: string, arguments: string)

  datatype Usage = Usage(input: int32, output: int32, cacheCreate: int32, cacheRead: int32)

  /** What a response means to the gateway. */
  datatype Reply = Reply(id: string, model: string, text: string, calls: seq<ToolCall>,
                         finish: FinishReason, usage: Option<Usage>)

  function Items(j: Json, key: string): seq<Json> {
    if j.At(key).Arr? then j.At(key).items else []
  }

  /** The first element of an array member, or null. */
  function First(j: Json, key: string): Json {
    if Items(j, key) != [] then Items(j, key)[0] else Null
  }

  // ---- Text ----

  /** The `text` of a block, empty when it has none. */
  function BlockText(block: Json): string {
    Text(block, "text")
  }

  function JoinTexts(blocks: seq<Json>): string {
    Flatten(Map(BlockText, blocks))
  }

  /** The loop that concatenates block texts. */
  method ConcatTexts(blocks: seq<Json>) returns (text: string)
    ensures text == JoinTexts(blocks)
  {
    text := "";
    for i := 0 to |blocks|
      invariant text == JoinTexts(blocks[..i])
    {
      text := text + BlockText(blocks[i]);
      assert Map(BlockText, blocks[..i + 1])[..i] == Map(BlockText, blocks[..i]);
    }
    assert blocks[..|blocks|] == blocks;
  }

  function ItemText(item: Json): string {
    JoinTexts(Items(item, "content"))
  }

  function OutputText(root: Json): string {
    Flatten(Map(ItemText, Items(root, "output")))
  }

  /** `response_text`: whatever the format, the first source that has the text. */
  function ResponseText(root: Json): string {
    var choice := First(root, "choices");
    if choice.At("message").At("content").Str? then Text(choice.At("message"), "content")
    else if choice.At("text").Str? then Text(choice, "text")
    else if root.At("output_text").Str? then Text(root, "output_text")
    else if JoinTexts(Items(root, "content")) != "" then JoinTexts(Items(root, "content"))
    else if OutputText(root) != "" then OutputText(root)
    else JoinTexts(Items(First(root, "candidates").At("content"), "parts"))
  }

  /** The loop over output items, each with its own block texts. */
  method ConcatItems(items: seq<Json>) returns (text: string)
    ensures text == Flatten(Map(ItemText, items))
  {
    text := "";
    for i := 0 to |items|
      invariant text == Flatten(Map(ItemText, items[..i]))
    {
      FlattenMapSnoc(ItemText, items, i);
      var more := ConcatTexts(Items(items[i], "content"));
      text := text + more;
    }
    assert items[..|items|] == items;
  }

  /** `response_text` as the source runs it. */
  method CollectText(root: Json) returns (text: string)
    ensures text == ResponseText(root)
  {
    var choice := First(root, "choices");
    if choice.At("message").At("content").Str? {
      return Text(choice.At("message"), "content");
    }
    if choice.At("text").Str? {
      return Text(choice, "text");
    }
    if root.At("output_text").Str? {
      return Text(root, "output_text");
    }
    text := ConcatTexts(Items(root, "content"));
    if text != "" {
      return;
    }
    text := ConcatItems(Items(root, "output"));
    if text == "" {
      text := ConcatTexts(Items(First(root, "candidates").At("content"), "parts"));
    }
  }

  // ---- Tool calls ----

  /** The text of an object argument; empty for anything else. */
  function WriteObject(c: Codec, j: Json): string {
    if j.Obj? then c.write(j) else ""
  }

  function OpenAiCall(tc: Json): Option<ToolCall> {
    if !tc.Obj? then None
    else Some(ToolCall(Text(tc, "id"), Text(tc.At("function"), "name"), Text(tc.At("function"), "arguments")))
  }

  function AnthropicCall(c: Codec, block: Json): Option<ToolCall> {
    if block.At("type") != Str("tool_use") then None
    else Some(ToolCall(Text(block, "id"), Text(block, "name"), WriteObject(c, block.At("input"))))
  }

  function ResponsesCall(item: Json): Option<ToolCall> {
    if item.At("type") != Str("function_call") then None
    else Some(ToolCall(Text(item, "call_id"), Text(item, "name"), Text(item, "arguments")))
  }

  /** A Gemini call carries no id; it is numbered later. */
  function GeminiCall(c: Codec, part: Json): Option<ToolCall> {
    var fc := part.At("functionCall");
    if !fc.Obj? then None
    else Some(ToolCall("", Text(fc, "name"), WriteObject(c, fc.At("args"))))
  }

  function Decimal(n: nat): (s: string)
    ensures '\0' !in s
  {
    var digit := "0123456789"[n % 10];
    if n < 10 then [digit] else Decimal(n / 10) + [digit]
  }

  function Numbered(calls: seq<ToolCall>): (r: seq<ToolCall>)
    ensures |r| == |calls|
  {
    seq(|calls|, i requires 0 <= i < |calls| => WithNumber(calls[i], i))
  }

  function WithNumber(call: ToolCall, before: nat): ToolCall {
    call.(id := call.name + "_" + Decimal(before + 1))
  }

  function CallItems(f: Format, root: Json): seq<Json> {
    match f
    case OpenAIChatCompletions => Items(First(root, "choices").At("message"), "tool_calls")
    case Anthropic => Items(root, "content")
    case OpenAIResponses => Items(root, "output")
    case Gemini => Items(First(root, "candidates").At("content"), "parts")
  }

  function CallOf(c: Codec, f: Format, item: Json): Option<ToolCall> {
    match f
    case OpenAIChatCompletions => OpenAiCall(item)
    case Anthropic => AnthropicCall(c, item)
    case OpenAIResponses => ResponsesCall(item)
    case Gemini => GeminiCall(c, item)
  }

  /** The calls that `of` finds, with a running number in place of ids when `numbered`. */
  function GatherWith(of: Json -> Option<ToolCall>, numbered: bool, items: seq<Json>): seq<ToolCall> {
    var calls := FilterMap(of, items);
    if numbered then Numbered(calls) else calls
  }

  function NextWith(call: Option<ToolCall>, numbered: bool, before: nat): seq<ToolCall> {
    match call
    case None => []
    case Some(call) => [if numbered then WithNumber(call, before) else call]
  }

  lemma NumberedSnoc(calls: seq<ToolCall>, call: ToolCall)
    ensures Numbered(calls + [call]) == Numbered(calls) + [WithNumber(call, |calls|)]
  {
  }

  lemma GatherWithSnoc(of: Json -> Option<ToolCall>, numbered: bool, items: seq<Json>, n: nat)
    requires n < |items|
    ensures var before := GatherWith(of, numbered, items[..n]);
            GatherWith(of, numbered, items[..n + 1]) == before + NextWith(of(items[n]), numbered, |before|)
  {
    FilterMapSnoc(of, items, n);
    if of(items[n]).Some? { NumberedSnoc(FilterMap(of, items[..n]), of(items[n]).value); }
  }

  function Gather(c: Codec, f: Format, items: seq<Json>): seq<ToolCall> {
    GatherWith(item => CallOf(c, f, item), f == Gemini, items)
  }

  function ExtractCalls(c: Codec, f: Format, root: Json): seq<ToolCall> {
    Gather(c, f, CallItems(f, root))
  }

  function Next(c: Codec, f: Format, item: Json, before: nat): seq<ToolCall> {
    NextWith(CallOf(c, f, item), f == Gemini, before)
  }

  lemma GatherSnoc(c: Codec, f: Format, items: seq<Json>, n: nat)
    requires n < |items|
    ensures var before := Gather(c, f, items[..n]);
            Gather(c, f, items[..n + 1]) == before + Next(c, f, items[n], |before|)
  {
    GatherWithSnoc(item => CallOf(c, f, item), f == Gemini, items, n);
  }

  /** `extract_tool_calls`: one pass, with a running number for Gemini. */
  method ExtractToolCalls(c: Codec, f: Format, root: Json) returns (calls: seq<ToolCall>)
    ensures calls == ExtractCalls(c, f, root)
  {
    var items, counter := CallItems(f, root), 0;
    calls := [];
    for i := 0 to |items|
      invariant counter == |calls|
      invariant calls == Gather(c, f, items[..i])
    {
      GatherSnoc(c, f, items, i);
      var call := CallOf(c, f, items[i]);
      if call.Some? {
        counter := counter + 1;
        var id := if f == Gemini then call.value.name + "_" + Decimal(counter) else call.value.id;
        calls := calls + [call.value.(id := id)];
      }
    }
    assert items[..|items|] == items;
  }

  // ---- Finish reasons ----

  predicate HasFunctionCall(parts: seq<Json>) {
    exists i | 0 <= i < |parts| :: parts[i].Has("functionCall")
  }

  predicate HasCallItem(items: seq<Json>) {
    exists i | 0 <= i < |items| :: items[i].At("type") == Str("function_call")
  }

  function ParseFinish(f: Format, root: Json): FinishReason {
    match f
    case OpenAIChatCompletions =>
      var reason := First(root, "choices").At("finish_reason");
      if reason == Str("stop") then Stop
      else if reason == Str("length") then Length
      else if reason == Str("tool_calls") then ToolCalls
      else if reason == Str("content_filter") then ContentFilter
      else Unknown
    case Anthropic =>
      var reason := root.At("stop_reason");
      if reason == Str("end_turn") then Stop
      else if reason == Str("max_tokens") then Length
      else if reason == Str("tool_use") then ToolCalls
      else Unknown
    case Gemini =>
      var candidate := First(root, "candidates");
      var reason := candidate.At("finishReason");
      if reason == Str("STOP") then
        if HasFunctionCall(Items(candidate.At("content"), "parts")) then ToolCalls else Stop
      else if reason == Str("MAX_TOKENS") then Length
      else if reason == Str("SAFETY") then Safety
      else if reason == Str("RECITATION") then Recitation
      else Unknown
    case OpenAIResponses =>
      var status := root.At("status");
      if status == Str("completed") then if HasCallItem(Items(root, "output")) then ToolCalls else Stop
      else if status == Str("incomplete") then Length
      else if status == Str("failed") then ContentFilter
      else Unknown
  }

  function SerializeFinish(reason: FinishReason, f: Format): string {
    match f
    case OpenAIChatCompletions =>
      (match reason
       case Length => "length"
       case ToolCalls => "tool_calls"
       case ContentFilter => "content_filter"
       case Safety => "content_filter"
       case Recitation => "content_filter"
       case _ => "stop")
    case Anthropic =>
      (match reason
       case Length => "max_tokens"
       case ToolCalls => "tool_use"
       case _ => "end_turn")
    case Gemini =>
      (match reason
       case Length => "MAX_TOKENS"
       case ContentFilter => "SAFETY"
       case Safety => "SAFETY"
       case Recitation => "RECITATION"
       case _ => "STOP")
    case OpenAIResponses =>
      (match reason
       case Length => "incomplete"
       case ContentFilter => "failed"
       case Safety => "failed"
       case Recitation => "failed"
       case _ => "completed")
  }

  // ---- Shapes that cannot be converted ----

  predicate BadOpenAi(root: Json) {
    var message := First(root, "choices").At("message");
    || |Items(root, "choices")| > 1
    || (message.Obj? && (message.Has("refusal")
                         || (message.Has("content") && !message.At("content").Str? && !message.At("content").Null?)))
  }

  predicate BadAnthropicBlock(block: Json) {
    block.At("type") != Str("text") && block.At("type") != Str("tool_use")
  }

  predicate BadResponsesItem(item: Json) {
    || (item.At("type") != Str("message") && item.At("type") != Str("function_call"))
    || (item.At("type") == Str("message")
        && exists i | 0 <= i < |Items(item, "content")| :: Items(item, "content")[i].At("type") != Str("output_text"))
  }

  predicate BadGeminiPart(part: Json) {
    !part.Has("text") && !part.Has("functionCall")
  }

  predicate BadCandidate(candidate: Json) {
    exists i | 0 <= i < |Items(candidate.At("content"), "parts")| ::
      BadGeminiPart(Items(candidate.At("content"), "parts")[i])
  }

  predicate Unsupported(f: Format, root: Json) {
    match f
    case OpenAIChatCompletions => BadOpenAi(root)
    case Anthropic => exists i | 0 <= i < |Items(root, "content")| :: BadAnthropicBlock(Items(root, "content")[i])
    case OpenAIResponses => exists i | 0 <= i < |Items(root, "output")| :: BadResponsesItem(Items(root, "output")[i])
    case Gemini =>
      || |Items(root, "candidates")| > 1
      || exists i | 0 <= i < |Items(root, "candidates")| :: BadCandidate(Items(root, "candidates")[i])
  }

  // ---- Usage ----

  function Clamp(n: int): (r: int32)
    ensures 0 <= r
  {
    if n < 0 then 0 else if n > INT_MAX then INT_MAX else n
  }

  /** `usage_integer`: the first key that holds an integer of at most 64 signed bits. */
  function UsageInteger(usage: Json, keys: seq<string>): (r: int32)
    ensures 0 <= r
  {
    if keys == [] then 0
    else if usage.At(keys[0]).IsInt64() then Clamp(usage.At(keys[0]).n)
    else UsageInteger(usage, keys[1..])
  }

  function Larger(a: int32, b: int32): int32 {
    if a > b then a else b
  }

  function UsageObject(root: Json): Option<Json> {
    if root.At("usage").Obj? then Some(root.At("usage"))
    else if root.At("usageMetadata").Obj? then Some(root.At("usageMetadata"))
    else None
  }

  function CountsOf(u: Json): Usage {
    Usage(UsageInteger(u, ["input_tokens", "prompt_tokens", "promptTokenCount"]),
          UsageInteger(u, ["output_tokens", "completion_tokens", "candidatesTokenCount"]),
          UsageInteger(u, ["cache_creation_input_tokens"]),
          Larger(Larger(UsageInteger(u, ["cache_read_input_tokens", "cachedContentTokenCount"]),
                        UsageInteger(u.At("prompt_tokens_details"), ["cached_tokens"])),
                 UsageInteger(u.At("input_tokens_details"), ["cached_tokens"])))
  }

  function ReadUsage(root: Json): Option<Usage> {
    match UsageObject(root)
    case None => None
    case Some(u) => Some(CountsOf(u))
  }

  /** The sum of two ints, as the machine adds them. */
  function Total(u: Usage): int32 {
    (u.input + u.output + 0x8000_0000) % 0x1_0000_0000 - 0x8000_0000
  }

  function Positive(key: string, n: int32): map<string, Json> {
    if n > 0 then map[key := Int(n)] else map[]
  }

  function Details(key: string, n: int32): map<string, Json> {
    if n > 0 then map[key := Obj(map["cached_tokens" := Int(n)])] else map[]
  }

  function UsageMembers(f: Format, u: Usage): map<string, Json> {
    match f
    case OpenAIChatCompletions =>
      map["prompt_tokens" := Int(u.input), "completion_tokens" := Int(u.output), "total_tokens" := Int(Total(u))]
      + Details("prompt_tokens_details", u.cacheRead)
    case OpenAIResponses =>
      map["input_tokens" := Int(u.input), "output_tokens" := Int(u.output), "total_tokens" := Int(Total(u))]
      + Details("input_tokens_details", u.cacheRead)
    case Anthropic =>
      map["input_tokens" := Int(u.input), "output_tokens" := Int(u.output)]
      + Positive("cache_creation_input_tokens", u.cacheCreate)
      + Positive("cache_read_input_tokens", u.cacheRead)
    case Gemini =>
      map["promptTokenCount" := Int(u.input), "candidatesTokenCount" := Int(u.output),
          "totalTokenCount" := Int(Total(u))]
      + Positive("cachedContentTokenCount", u.cacheRead)
  }

  function UsageField(f: Format, u: Option<Usage>): map<string, Json> {
    match u
    case None => map[]
    case Some(v) => map[(if f == Gemini then "usageMetadata" else "usage") := Obj(UsageMembers(f, v))]
  }

  // ---- Writing ----

  function ParseObject(c: Codec, text: string): Json {
    match c.parse(text)
    case Some(Obj(m)) => if text == "" then Obj(map[]) else Obj(m)
    case _ => Obj(map[])
  }

  function OpenAiCallJson(tc: ToolCall): Json {
    Obj(map["id" := CText(tc.id), "type" := Str("function"),
            "function" := Obj(map["name" := CText(tc.name), "arguments" := CText(tc.arguments)])])
  }

  function AnthropicCallJson(c: Codec, tc: ToolCall): Json {
    Obj(map["type" := Str("tool_use"), "id" := CText(tc.id), "name" := CText(tc.name),
            "input" := ParseObject(c, tc.arguments)])
  }

  function ResponsesCallJson(tc: ToolCall): Json {
    Obj(map["type" := Str("function_call"), "call_id" := CText(tc.id), "name" := CText(tc.name),
            "arguments" := CText(tc.arguments)])
  }

  function GeminiCallJson(c: Codec, tc: ToolCall): Json {
    Obj(map["functionCall" := Obj(map["name" := CText(tc.name), "args" := ParseObject(c, tc.arguments)])])
  }

  /** A text block in front of the calls: when there is text, or nothing else. */
  function TextBlock(r: Reply, block: Json): seq<Json> {
    if r.text != "" || r.calls == [] then [block] else []
  }

  function OpenAiReply(r: Reply): map<string, Json> {
    var content := if r.text == "" && r.calls != [] then Null else CText(r.text);
    var calls := if r.calls != [] then map["tool_calls" := Arr(Map(OpenAiCallJson, r.calls))] else map[];
    var message := Obj(map["role" := Str("assistant"), "content" := content] + calls);
    var choice := Obj(map["index" := Int(0), "message" := message,
                          "finish_reason" := Str(SerializeFinish(r.finish, OpenAIChatCompletions))]);
    map["id" := CText(r.id), "object" := Str("chat.completion"), "model" := CText(r.model),
        "choices" := Arr([choice])]
  }

  function AnthropicReply(c: Codec, r: Reply): map<string, Json> {
    var text := Obj(map["type" := Str("text"), "text" := CText(r.text)]);
    map["id" := CText(r.id), "type" := Str("message"), "role" := Str("assistant"), "model" := CText(r.model),
        "content" := Arr(TextBlock(r, text) + Map(tc => AnthropicCallJson(c, tc), r.calls)),
        "stop_reason" := Str(SerializeFinish(r.finish, Anthropic))]
  }

  function ResponsesReply(r: Reply): map<string, Json> {
    var text := Obj(map["type" := Str("output_text"), "text" := CText(r.text)]);
    var item := Obj(map["type" := Str("message"), "role" := Str("assistant"), "content" := Arr([text])]);
    map["id" := CText(r.id), "object" := Str("response"),
        "status" := Str(SerializeFinish(r.finish, OpenAIResponses)), "model" := CText(r.model),
        "output_text" := CText(r.text),
        "output" := Arr(TextBlock(r, item) + Map(ResponsesCallJson, r.calls))]
  }

  function GeminiReply(c: Codec, r: Reply): map<string, Json> {
    var text := Obj(map["text" := CText(r.text)]);
    var content := Obj(map["role" := Str("model"),
                           "parts" := Arr(TextBlock(r, text) + Map(tc => GeminiCallJson(c, tc), r.calls))]);
    map["candidates" := Arr([Obj(map["content" := content,
                                     "finishReason" := Str(SerializeFinish(r.finish, Gemini))])])]
  }

  function Write(c: Codec, f: Format, r: Reply): Json {
    var members := match f
                   case OpenAIChatCompletions => OpenAiReply(r)
                   case Anthropic => AnthropicReply(c, r)
                   case OpenAIResponses => ResponsesReply(r)
                   case Gemini => GeminiReply(c, r);
    Obj(members + UsageField(f, r.usage))
  }

  // ---- Conversion ----

  function ModelOf(root: Json, fallback: string): string {
    if Text(root, "model") != "" then Text(root, "model")
    else if Text(root, "id") != "" then Text(root, "id") else fallback
  }

  function IdOf(root: Json, target: Format): string {
    if Text(root, "id") != "" then Text(root, "id")
    else match target
         case OpenAIChatCompletions => "chatcmpl-gateway"
         case Anthropic => "msg_gateway"
         case OpenAIResponses => "resp_gateway"
         case Gemini => ""
  }

  function Read(c: Codec, f: Format, target: Format, root: Json, requestedModel: string): Reply {
    var calls := ExtractCalls(c, f, root);
    Reply(IdOf(root, target), ModelOf(root, requestedModel), ResponseText(root), calls,
          if calls == [] then ParseFinish(f, root) else ToolCalls, ReadUsage(root))
  }

  predicate Convertible(f: Format, root: Json) {
    root.Obj? && !Unsupported(f, root)
  }

  /** A body as the parser sees it; null stands for a parse error, which is no object either. */
  function Doc(c: Codec, body: string): Json {
    match c.parse(body)
    case None => Null
    case Some(root) => root
  }

  /** `convert_response_checked`; None stands for its failures. */
  function Convert(c: Codec, body: string, from: Format, to: Format, requestedModel: string): Option<string> {
    if from == to then Some(body)
    else if !Convertible(from, Doc(c, body)) then None
    else Some(c.write(Write(c, to, Read(c, from, to, Doc(c, body), requestedModel))))
  }
}
