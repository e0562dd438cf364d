/** Requests of the Anthropic messages format. */
module AnthropicRequests {
  import opened Seqs
  import opened Json
  import opened Responses
  import opened ChatIr
  import opened Fields

  // ---- Parsing ----

  function SystemOf(j: Json): string {
    match j
    case Str(s) => CStr(s)
    case Arr(items) => Lines(FilterMap(StringText, items))
    case _ => ""
  }

  function MessageOf(c: Codec, m: Json): Option<Message> {
    if !m.Obj? then None
    else
      var content := Content(c, m.At("content"));
      Some(Message(Text(m, "role"), content, CallsOf(content), LastResult(content)))
  }

  predicate BadMessage(m: Json) {
    BadContent(m.At("content"))
  }

  function ToolOf(c: Codec, t: Json): Option<ToolDef> {
    if !t.Obj? then None
    else Some(ToolDef(Text(t, "name"), Text(t, "description"), Parameters(c, t.At("input_schema"))))
  }

  predicate AnyBad(items: seq<Json>) {
    exists i | 0 <= i < |items| :: BadMessage(items[i])
  }

  function Parse(c: Codec, doc: Json): ChatRequest {
    var messages := Items(doc, "messages");
    ChatRequest(Text(doc, "model"), SystemOf(doc.At("system")), FilterMap(m => MessageOf(c, m), messages),
                FilterMap(t => ToolOf(c, t), Items(doc, "tools")), IsTrue(doc.At("stream")),
                IntOr(doc.At("max_tokens"), MAX_TOKENS), Number(doc.At("temperature")), Number(doc.At("top_p")),
                Strings(Items(doc, "stop_sequences")), Text(doc.At("metadata"), "user_id"), AnyBad(messages))
  }

  method ParseMessages(c: Codec, items: seq<Json>) returns (messages: seq<Message>, unsupported: bool)
    ensures messages == FilterMap(m => MessageOf(c, m), items)
    ensures unsupported <==> AnyBad(items)
  {
    messages, unsupported := CollectAndFlag(m => MessageOf(c, m), BadMessage, items);
  }

  // ---- Serializing ----

  predicate NeedsBlocks(m: Message) {
    m.toolCalls != [] || exists i | 0 <= i < |m.content| :: m.content[i].kind != TextKind
  }

  function BlockJson(c: Codec, b: ContentBlock): Json {
    match b.kind
    case TextKind => Obj(map["type" := Str("text"), "text" := CText(b.text)])
    case ToolUse => Obj(map["type" := Str("tool_use"), "id" := CText(b.toolCallId), "name" := CText(b.toolName),
                            "input" := ParseObject(c, CStr(b.toolArguments))])
    case ToolResult => Obj(map["type" := Str("tool_result"), "tool_use_id" := CText(b.toolCallId),
                               "content" := CText(b.text)])
    case ImageKind => Obj(map[])
  }

  function ContentJson(c: Codec, m: Message): Json {
    if NeedsBlocks(m) then Arr(Map(b => BlockJson(c, b), m.content)) else CText(Lines(TextsOf(m.content)))
  }

  function MessageJson(c: Codec, m: Message): Json {
    Obj(map["role" := CText(m.role), "content" := ContentJson(c, m)])
  }

  function ToolFields(c: Codec, t: ToolDef): Fields {
    [("name", Some(CText(t.name))),
     ("description", WhenText(t.description)),
     ("input_schema", Some(ParseObject(c, CStr(t.parametersJson))))]
  }

  function ToolJson(c: Codec, t: ToolDef): Json {
    Document(ToolFields(c, t))
  }

  function RequestFields(c: Codec, r: ChatRequest): Fields {
    [("model", Some(CText(r.model))),
     ("max_tokens", Some(Int(Limit(r.maxTokens)))),
     ("system", WhenText(r.system)),
     ("stream", When(r.stream, Bool(true))),
     ("temperature", WhenSet(r.temperature)),
     ("top_p", WhenSet(r.topP)),
     ("stop_sequences", When(r.stop != [], Arr(Map(CText, r.stop)))),
     ("metadata", When(r.userId != "", Obj(map["user_id" := CText(r.userId)]))),
     ("messages", Some(Arr(Map(m => MessageJson(c, m), r.messages)))),
     ("tools", When(r.tools != [], Arr(Map(t => ToolJson(c, t), r.tools))))]
  }

  function Serialize(c: Codec, r: ChatRequest): Json {
    Document(RequestFields(c, r))
  }

  // ---- The round trip ----

  /** A message back from this format: its texts joined, and no tool-call id. */
  function Kept(m: Message): Message {
    Joined(m).(toolCallId := "")
  }

  lemma MessageShape(c: Codec, m: Message)
    ensures MessageJson(c, m).At("role") == CText(m.role) && MessageJson(c, m).At("content") == ContentJson(c, m)
  {
  }

  lemma MessageBack(c: Codec, m: Message)
    requires PlainMessage(m)
    ensures MessageOf(c, MessageJson(c, m)) == Some(Kept(m)) && !BadMessage(MessageJson(c, m))
  {
    MessageShape(c, m);
    assert !NeedsBlocks(m);
    OneTextBack(c, m.content);
    JoinedSaysTheSame(m);
    NoResult(Joined(m).content);
  }

  lemma ToolBack(c: Codec, t: ToolDef)
    requires CleanTool(t)
    ensures ToolOf(c, ToolJson(c, t)) == Some(ToolSchema(c, t))
  {
    var fields := ToolFields(c, t);
    FieldAt(fields, 0);
    FieldAt(fields, 1);
    FieldAt(fields, 2);
  }

  lemma FieldsBack(c: Codec, r: ChatRequest)
    ensures var doc := Serialize(c, r);
            && doc.At("model") == CText(r.model)
            && Items(doc, "messages") == Map(m => MessageJson(c, m), r.messages)
            && Items(doc, "tools") == Map(t => ToolJson(c, t), r.tools)
            && IsTrue(doc.At("stream")) == r.stream
            && IntOr(doc.At("max_tokens"), MAX_TOKENS) == Limit(r.maxTokens)
            && doc.At("system") == OrNull(WhenText(r.system))
  {
    var fields := RequestFields(c, r);
    FieldAt(fields, 0);
    FieldAt(fields, 1);
    FieldAt(fields, 2);
    FieldAt(fields, 3);
    FieldAt(fields, 8);
    FieldAt(fields, 9);
  }

  lemma SettingsBack(c: Codec, r: ChatRequest)
    ensures var doc := Serialize(c, r);
            && Number(doc.At("temperature")) == r.temperature
            && Number(doc.At("top_p")) == r.topP
            && Items(doc, "stop_sequences") == Map(CText, r.stop)
            && Text(doc.At("metadata"), "user_id") == CStr(r.userId)
  {
    var fields := RequestFields(c, r);
    FieldAt(fields, 4);
    FieldAt(fields, 5);
    FieldAt(fields, 6);
    FieldAt(fields, 7);
  }

  lemma MessagesAgain(c: Codec, r: ChatRequest)
    requires Plain(r)
    ensures var items := Map(m => MessageJson(c, m), r.messages);
            FilterMap(m => MessageOf(c, m), items) == Map(Kept, r.messages) && !AnyBad(items)
  {
    var items := Map(m => MessageJson(c, m), r.messages);
    forall i | 0 <= i < |items| ensures MessageOf(c, items[i]) == Some(Kept(r.messages[i])) && !BadMessage(items[i]) {
      MessageBack(c, r.messages[i]);
    }
    FilterMapAll(m => MessageOf(c, m), items, Map(Kept, r.messages));
  }

  lemma PartsBack(c: Codec, r: ChatRequest)
    requires Plain(r)
    ensures var back := Parse(c, Serialize(c, r));
            && back.system == r.system
            && back.messages == Map(Kept, r.messages)
            && back.tools == Map(t => ToolSchema(c, t), r.tools)
            && !back.unsupported
            && back.model == CStr(r.model) && back.stream == r.stream && back.maxTokens == Limit(r.maxTokens)
  {
    FieldsBack(c, r);
    MessagesAgain(c, r);
    forall t | CleanTool(t) ensures ToolOf(c, ToolJson(c, t)) == Some(ToolSchema(c, t)) { ToolBack(c, t); }
    ToolsAgain(t => ToolOf(c, t), t => ToolJson(c, t), t => ToolSchema(c, t), r.tools);
  }

  lemma RoundTrip(c: Codec, r: ChatRequest)
    requires Lawful(c) && Plain(r)
    ensures var back := Parse(c, Serialize(c, r));
            Plain(back) && SaidBy(c, back) == SaidBy(c, r)
  {
    PartsBack(c, r);
    SettingsBack(c, r);
    StringsBack(r.stop);
    JoinedAll(r.messages);
    forall t | CleanTool(t)
      ensures CleanTool(ToolSchema(c, t)) && ToolSaid(c, ToolSchema(c, t)) == ToolSaid(c, t)
    {
      ToolSaysTheSame(c, t);
    }
    AgainAll(c, r.tools, t => ToolSchema(c, t));
    SaidAgain(c, r, Map(Kept, r.messages), Map(t => ToolSchema(c, t), r.tools), Parse(c, Serialize(c, r)));
  }

  // ---- Tool calls ----

  function Normal(c: Codec, tc: ToolCall): ToolCall {
    ToolCall(CStr(tc.id), CStr(tc.name), c.write(ParseObject(c, CStr(tc.arguments))))
  }

  /** The calls of a written message are those of its tool-use blocks; a call without a block is dropped. */
  lemma CallsBack(c: Codec, m: Message)
    ensures MessageOf(c, MessageJson(c, m)).Some?
    ensures MessageOf(c, MessageJson(c, m)).value.toolCalls == Map(tc => Normal(c, tc), CallsOf(m.content))
  {
    assert MessageJson(c, m).At("content") == ContentJson(c, m);
    if NeedsBlocks(m) {
      BlocksBack(c, m.content);
    } else {
      FilterMapNone(CallOfBlock, m.content);
      assert Content(c, ContentJson(c, m)) == [TextOnly(CStr(Lines(TextsOf(m.content))))];
      FilterMapNone(CallOfBlock, Content(c, ContentJson(c, m)));
    }
  }

  lemma BlockBack(c: Codec, b: ContentBlock)
    ensures AndThen(Block(c, BlockJson(c, b)), CallOfBlock) == AndThen(CallOfBlock(b), tc => Some(Normal(c, tc)))
  {
  }

  lemma BlocksBack(c: Codec, content: seq<ContentBlock>)
    ensures CallsOf(Content(c, Arr(Map(b => BlockJson(c, b), content)))) == Map(tc => Normal(c, tc), CallsOf(content))
  {
    var items, block, normal := Map(b => BlockJson(c, b), content), part => Block(c, part), tc => Normal(c, tc);
    forall i | 0 <= i < |content|
      ensures AndThen(block(items[i]), CallOfBlock) == AndThen(CallOfBlock(content[i]), tc => Some(normal(tc)))
    {
      BlockBack(c, content[i]);
    }
    FilterMapThrough(block, CallOfBlock, items, CallOfBlock, normal, content);
  }

  // ---- Strings without NUL ----

  lemma SystemClean(j: Json)
    ensures Clean(SystemOf(j))
  {
    if j.Arr? {
      ParsedLinesClean(StringText, j.items);
    }
  }

  lemma ParsedClean(c: Codec, doc: Json)
    requires Lawful(c)
    ensures CleanRequest(Parse(c, doc))
  {
    forall m ensures MessageOf(c, m).Some? ==> CleanMessage(MessageOf(c, m).value) {
      ContentClean(c, m.At("content"));
    }
    FilterMapForall(m => MessageOf(c, m), Items(doc, "messages"), CleanMessage);
    SystemClean(doc.At("system"));
    FilterMapForall(t => ToolOf(c, t), Items(doc, "tools"), CleanTool);
  }
}
