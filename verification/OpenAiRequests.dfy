/** Requests of the chat-completions format. */
module OpenAiRequests {
  import opened Seqs
  import opened Json
  import opened Responses
  import opened ChatIr
  import opened Fields

  // ---- Parsing ----

  predicate IsSystem(m: Json) {
    Text(m, "role") == "system" || Text(m, "role") == "developer"
  }

  function SystemText(m: Json): Option<string> {
    if !IsSystem(m) || !m.Has("content") then None
    else
      match m.At("content")
      case Str(s) => Some(CStr(s))
      case Arr(items) => Some(JoinTexts(items))
      case _ => Some("")
  }

  function MessageOf(c: Codec, m: Json): Option<Message> {
    if !m.Obj? || IsSystem(m) then None
    else Some(Message(Text(m, "role"), Content(c, m.At("content")), FilterMap(OpenAiCall, Items(m, "tool_calls")),
                      Text(m, "tool_call_id")))
  }

  predicate BadMessage(m: Json) {
    m.Obj? && !IsSystem(m) && BadContent(m.At("content"))
  }

  function ToolOf(c: Codec, t: Json): Option<ToolDef> {
    if Text(t, "type") != "function" then None
    else
      var fn := t.At("function");
      Some(ToolDef(Text(fn, "name"), Text(fn, "description"), Parameters(c, fn.At("parameters"))))
  }

  function StopOf(j: Json): seq<string> {
    match j
    case Str(s) => [CStr(s)]
    case Arr(items) => Strings(items)
    case _ => []
  }

  function MaxTokens(doc: Json): int32 {
    IntOr(doc.At("max_tokens"), IntOr(doc.At("max_completion_tokens"), MAX_TOKENS))
  }

  predicate AnyBad(items: seq<Json>) {
    exists i | 0 <= i < |items| :: BadMessage(items[i])
  }

  function Parse(c: Codec, doc: Json): ChatRequest {
    var messages := Items(doc, "messages");
    ChatRequest(Text(doc, "model"), Lines(FilterMap(SystemText, messages)), FilterMap(m => MessageOf(c, m), messages),
                FilterMap(t => ToolOf(c, t), Items(doc, "tools")), IsTrue(doc.At("stream")), MaxTokens(doc),
                Number(doc.At("temperature")), Number(doc.At("top_p")), StopOf(doc.At("stop")), Text(doc, "user"),
                AnyBad(messages))
  }

  /** The loop over the messages, which fills the system text, the messages and the flag together. */
  method ParseMessages(c: Codec, items: seq<Json>)
    returns (system: string, messages: seq<Message>, unsupported: bool)
    ensures system == Lines(FilterMap(SystemText, items))
    ensures messages == FilterMap(m => MessageOf(c, m), items)
    ensures unsupported <==> AnyBad(items)
  {
    system, messages, unsupported := ReadMessages(SystemText, m => MessageOf(c, m), BadMessage, items);
  }

  // ---- Serializing ----

  predicate IsTool(b: ContentBlock) {
    b.kind == ToolUse || b.kind == ToolResult
  }

  /** Does the content go out as an array of blocks? */
  predicate NeedsBlocks(m: Message) {
    m.toolCalls != [] || exists i | 0 <= i < |m.content| :: IsTool(m.content[i])
  }

  /** A tool-use block has no branch of its own and goes out as an empty object. */
  function BlockJson(b: ContentBlock): Json {
    match b.kind
    case TextKind => Obj(map["type" := Str("text"), "text" := CText(b.text)])
    case ToolResult => Obj(map["type" := Str("tool_result"), "tool_use_id" := CText(b.toolCallId),
                               "content" := CText(b.text)])
    case _ => Obj(map[])
  }

  function ContentJson(m: Message): Json {
    if NeedsBlocks(m) then Arr(Map(BlockJson, m.content)) else CText(Lines(TextsOf(m.content)))
  }

  function MessageFields(m: Message): Fields {
    [("role", Some(CText(m.role))),
     ("tool_call_id", WhenText(m.toolCallId)),
     ("content", Some(ContentJson(m))),
     ("tool_calls", When(m.toolCalls != [], Arr(Map(OpenAiCallJson, m.toolCalls))))]
  }

  function MessageJson(m: Message): Json {
    Document(MessageFields(m))
  }

  function SystemJson(system: string): seq<Json> {
    if system == "" then [] else [Obj(map["role" := Str("system"), "content" := CText(system)])]
  }

  function FunctionFields(c: Codec, t: ToolDef): Fields {
    [("name", Some(CText(t.name))),
     ("description", WhenText(t.description)),
     ("parameters", Parsed(c, t.parametersJson))]
  }

  function ToolJson(c: Codec, t: ToolDef): Json {
    Obj(map["type" := Str("function"), "function" := Document(FunctionFields(c, t))])
  }

  function RequestFields(c: Codec, r: ChatRequest): Fields {
    [("model", Some(CText(r.model))),
     ("messages", Some(Arr(SystemJson(r.system) + Map(MessageJson, r.messages)))),
     ("stream", When(r.stream, Bool(true))),
     ("max_tokens", When(r.maxTokens > 0, Int(r.maxTokens))),
     ("temperature", WhenSet(r.temperature)),
     ("top_p", WhenSet(r.topP)),
     ("stop", When(r.stop != [], Arr(Map(CText, r.stop)))),
     ("user", WhenText(r.userId)),
     ("tools", When(r.tools != [], Arr(Map(t => ToolJson(c, t), r.tools))))]
  }

  function Serialize(c: Codec, r: ChatRequest): Json {
    Document(RequestFields(c, r))
  }

  // ---- The round trip ----

  lemma MessageShape(m: Message)
    ensures var j := MessageJson(m);
            && j.At("role") == CText(m.role)
            && j.At("tool_call_id") == OrNull(WhenText(m.toolCallId))
            && j.At("content") == ContentJson(m)
            && Items(j, "tool_calls") == Map(OpenAiCallJson, m.toolCalls)
  {
    var fields := MessageFields(m);
    FieldAt(fields, 0);
    FieldAt(fields, 1);
    FieldAt(fields, 2);
    FieldAt(fields, 3);
  }

  lemma MessageBack(c: Codec, m: Message)
    requires PlainMessage(m)
    ensures MessageOf(c, MessageJson(m)) == Some(Joined(m))
    ensures SystemText(MessageJson(m)).None? && !BadMessage(MessageJson(m))
  {
    OneTextBack(c, m.content);
    MessageShape(m);
    assert !NeedsBlocks(m);
  }

  lemma ToolShape(c: Codec, t: ToolDef)
    ensures var j := ToolJson(c, t);
            && j.At("type") == Str("function")
            && j.At("function").At("name") == CText(t.name)
            && j.At("function").At("description") == OrNull(WhenText(t.description))
            && j.At("function").At("parameters") == OrNull(Parsed(c, t.parametersJson))
  {
    var fields := FunctionFields(c, t);
    FieldAt(fields, 0);
    FieldAt(fields, 1);
    FieldAt(fields, 2);
  }

  lemma ToolBack(c: Codec, t: ToolDef)
    requires CleanTool(t)
    ensures ToolOf(c, ToolJson(c, t)) == Some(ToolAgain(c, t))
  {
    ToolShape(c, t);
  }

  lemma FieldsBack(c: Codec, r: ChatRequest)
    ensures var doc := Serialize(c, r);
            && doc.At("model") == CText(r.model)
            && doc.At("messages") == Arr(SystemJson(r.system) + Map(MessageJson, r.messages))
            && Items(doc, "tools") == Map(t => ToolJson(c, t), r.tools)
            && IsTrue(doc.At("stream")) == r.stream
            && MaxTokens(doc) == Limit(r.maxTokens)
  {
    var fields := RequestFields(c, r);
    FieldAt(fields, 0);
    FieldAt(fields, 1);
    FieldAt(fields, 2);
    FieldAt(fields, 3);
    FieldAt(fields, 8);
    FieldAbsent(fields, "max_completion_tokens");
  }

  lemma SettingsBack(c: Codec, r: ChatRequest)
    ensures var doc := Serialize(c, r);
            && Number(doc.At("temperature")) == r.temperature
            && Number(doc.At("top_p")) == r.topP
            && doc.At("stop") == OrNull(When(r.stop != [], Arr(Map(CText, r.stop))))
            && doc.At("user") == OrNull(WhenText(r.userId))
  {
    var fields := RequestFields(c, r);
    FieldAt(fields, 4);
    FieldAt(fields, 5);
    FieldAt(fields, 6);
    FieldAt(fields, 7);
  }

  lemma SystemShape(c: Codec, system: string)
    requires '\0' !in system
    ensures forall j | j in SystemJson(system) ::
              SystemText(j) == Some(system) && MessageOf(c, j).None? && !BadMessage(j)
  {
  }

  lemma MessagesShape(c: Codec, messages: seq<Message>)
    requires forall i | 0 <= i < |messages| :: PlainMessage(messages[i])
    ensures forall i | 0 <= i < |messages| ::
              var j := Map(MessageJson, messages)[i];
              MessageOf(c, j) == Some(Joined(messages[i])) && SystemText(j).None? && !BadMessage(j)
  {
    forall i | 0 <= i < |messages|
      ensures var j := Map(MessageJson, messages)[i];
              MessageOf(c, j) == Some(Joined(messages[i])) && SystemText(j).None? && !BadMessage(j)
    {
      MessageBack(c, messages[i]);
    }
  }

  function Written(r: ChatRequest): seq<Json> {
    SystemJson(r.system) + Map(MessageJson, r.messages)
  }

  lemma MessagesAgain(c: Codec, r: ChatRequest)
    requires Plain(r)
    ensures FilterMap(m => MessageOf(c, m), Written(r)) == Map(Joined, r.messages)
    ensures !AnyBad(Written(r))
  {
    SystemShape(c, r.system);
    MessagesShape(c, r.messages);
    MessagesBack(m => MessageOf(c, m), SystemJson(r.system), Map(MessageJson, r.messages), Map(Joined, r.messages));
  }

  lemma SystemBack(c: Codec, r: ChatRequest)
    requires Plain(r)
    ensures Lines(FilterMap(SystemText, Written(r))) == r.system
  {
    SystemShape(c, r.system);
    MessagesShape(c, r.messages);
    SystemAgain(SystemText, SystemJson(r.system), Map(MessageJson, r.messages), r.system);
  }

  lemma PartsBack(c: Codec, r: ChatRequest)
    requires Plain(r)
    ensures var back := Parse(c, Serialize(c, r));
            && back.system == r.system
            && back.messages == Map(Joined, r.messages)
            && back.tools == Map(t => ToolAgain(c, t), r.tools)
            && !back.unsupported
            && back.model == CStr(r.model) && back.stream == r.stream && back.maxTokens == Limit(r.maxTokens)
  {
    FieldsBack(c, r);
    MessagesAgain(c, r);
    SystemBack(c, r);
    forall t | CleanTool(t) ensures ToolOf(c, ToolJson(c, t)) == Some(ToolAgain(c, t)) { ToolBack(c, t); }
    ToolsAgain(t => ToolOf(c, t), t => ToolJson(c, t), t => ToolAgain(c, t), r.tools);
  }

  lemma RoundTrip(c: Codec, r: ChatRequest)
    requires Lawful(c) && Plain(r)
    ensures var back := Parse(c, Serialize(c, r));
            Plain(back) && SaidBy(c, back) == SaidBy(c, r)
  {
    PartsBack(c, r);
    SettingsBack(c, r);
    StringsBack(r.stop);
    JoinedAll(r.messages);
    forall t | CleanTool(t)
      ensures CleanTool(ToolAgain(c, t)) && ToolSaid(c, ToolAgain(c, t)) == ToolSaid(c, t)
    {
      ToolSaysTheSame(c, t);
    }
    AgainAll(c, r.tools, t => ToolAgain(c, t));
    SaidAgain(c, r, Map(Joined, r.messages), Map(t => ToolAgain(c, t), r.tools), Parse(c, Serialize(c, r)));
  }

  // ---- What this serializer cannot write ----

  /** A block that goes out as an empty object, which no parser accepts. */
  predicate Lost(b: ContentBlock) {
    b.kind == ToolUse || b.kind == ImageKind
  }

  predicate SendsLost(m: Message) {
    && NeedsBlocks(m)
    && CStr(m.role) != "system" && CStr(m.role) != "developer"
    && exists i | 0 <= i < |m.content| :: Lost(m.content[i])
  }

  lemma LostBlock(b: ContentBlock)
    ensures BadBlock(BlockJson(b)) <==> Lost(b)
  {
  }

  lemma LostMessage(m: Message)
    ensures BadMessage(MessageJson(m)) <==> SendsLost(m)
  {
    MessageShape(m);
    forall i | 0 <= i < |m.content| ensures BadBlock(Map(BlockJson, m.content)[i]) <==> Lost(m.content[i]) {
      LostBlock(m.content[i]);
    }
  }

  lemma LostAnywhere(r: ChatRequest)
    ensures AnyBad(Written(r)) <==> exists i | 0 <= i < |r.messages| :: SendsLost(r.messages[i])
  {
    var items := Map(MessageJson, r.messages);
    forall i | 0 <= i < |items| ensures BadMessage(items[i]) <==> SendsLost(r.messages[i]) {
      LostMessage(r.messages[i]);
    }
    assert forall j | j in SystemJson(r.system) :: IsSystem(j);
    FlaggedExactly(BadMessage, SystemJson(r.system), items, r.messages, SendsLost);
  }

  /** The written request is refused on the way back exactly when a message sends a lost block. */
  lemma UnsupportedExactly(c: Codec, r: ChatRequest)
    ensures Parse(c, Serialize(c, r)).unsupported <==> exists i | 0 <= i < |r.messages| :: SendsLost(r.messages[i])
  {
    FieldsBack(c, r);
    LostAnywhere(r);
  }

  // ---- Strings without NUL ----

  lemma SystemTextClean(m: Json)
    ensures SystemText(m).Some? ==> Clean(SystemText(m).value)
  {
    if m.At("content").Arr? {
      FlattenClean(Map(BlockText, m.At("content").items));
    }
  }

  lemma ParsedClean(c: Codec, doc: Json)
    requires Lawful(c)
    ensures CleanRequest(Parse(c, doc))
  {
    var items := Items(doc, "messages");
    forall m ensures MessageOf(c, m).Some? ==> CleanMessage(MessageOf(c, m).value) {
      ContentClean(c, m.At("content"));
    }
    forall m ensures SystemText(m).Some? ==> Clean(SystemText(m).value) { SystemTextClean(m); }
    FilterMapForall(m => MessageOf(c, m), items, CleanMessage);
    ParsedLinesClean(SystemText, items);
    FilterMapForall(t => ToolOf(c, t), Items(doc, "tools"), CleanTool);
  }
}
