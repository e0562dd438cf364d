/** Requests of the Gemini format. */
module GeminiRequests {
  import opened Seqs
  import opened Json
  import opened Responses
  import opened ChatIr
  import opened Fields

  // ---- Parsing ----

  /** A part as a block; `uses` numbers the function calls of one message. */
  function Block(c: Codec, part: Json, uses: nat): Option<ContentBlock> {
    var fc, fr := part.At("functionCall"), part.At("functionResponse");
    if part.At("text").Str? then Some(TextOnly(Text(part, "text")))
    else if fc.Obj? then
      var name := Text(fc, "name");
      Some(ContentBlock(ToolUse, "", name + "_" + Decimal(uses + 1), name, WriteObject(c, fc.At("args"))))
    else if fr.Obj? then
      Some(ContentBlock(ToolResult, WriteObject(c, fr.At("response")), Text(fr, "name"), Text(fr, "name"), ""))
    else None
  }

  predicate BadPart(part: Json) {
    part.Obj? && !part.At("text").Str? && !part.At("functionCall").Obj? && !part.At("functionResponse").Obj?
  }

  function Uses(content: seq<ContentBlock>): nat {
    |CallsOf(content)|
  }

  /** Parts turned into blocks one by one, each seeing how many calls came before it. */
  function Numbering(block: (Json, nat) -> Option<ContentBlock>, parts: seq<Json>): seq<ContentBlock> {
    if parts == [] then []
    else
      var before := Numbering(block, parts[..|parts| - 1]);
      before + AsSeq(block(parts[|parts| - 1], Uses(before)))
  }

  function Blocks(c: Codec, parts: seq<Json>): seq<ContentBlock> {
    Numbering((part: Json, uses: nat) => Block(c, part, uses), parts)
  }

  predicate BadParts(parts: seq<Json>) {
    exists i | 0 <= i < |parts| :: BadPart(parts[i])
  }

  lemma NumberingSnoc(block: (Json, nat) -> Option<ContentBlock>, parts: seq<Json>, n: nat)
    requires n < |parts|
    ensures var before := Numbering(block, parts[..n]);
            Numbering(block, parts[..n + 1]) == before + AsSeq(block(parts[n], Uses(before)))
  {
    assert parts[..n + 1][..n] == parts[..n];
  }

  lemma UsesSnoc(content: seq<ContentBlock>, b: ContentBlock)
    ensures CallsOf(content + [b]) == CallsOf(content) + AsSeq(CallOfBlock(b))
    ensures LastResult(content + [b]) == if b.kind == ToolResult then b.toolCallId else LastResult(content)
  {
    assert (content + [b])[..|content|] == content;
  }

  /** What one block adds to the calls and leaves as the call id. */
  method Tally(content: seq<ContentBlock>, calls: seq<ToolCall>, callId: string, b: ContentBlock)
    returns (calls': seq<ToolCall>, callId': string)
    requires calls == CallsOf(content) && callId == LastResult(content)
    ensures calls' == CallsOf(content + [b]) && callId' == LastResult(content + [b])
  {
    UsesSnoc(content, b);
    calls', callId' := calls, callId;
    if b.kind == ToolUse {
      calls' := calls + [ToolCall(b.toolCallId, b.toolName, b.toolArguments)];
    } else if b.kind == ToolResult {
      callId' := b.toolCallId;
    }
  }

  /** One part: what it adds to the content, the calls, the call id and the flag. */
  method ReadPart(block: (Json, nat) -> Option<ContentBlock>, parts: seq<Json>, i: nat,
                  content: seq<ContentBlock>, calls: seq<ToolCall>, callId: string)
    returns (content': seq<ContentBlock>, calls': seq<ToolCall>, callId': string)
    requires i < |parts| && content == Numbering(block, parts[..i])
    requires calls == CallsOf(content) && callId == LastResult(content)
    ensures content' == Numbering(block, parts[..i + 1])
    ensures calls' == CallsOf(content') && callId' == LastResult(content')
  {
    NumberingSnoc(block, parts, i);
    var next := block(parts[i], |calls|);
    content', calls', callId' := content, calls, callId;
    if next.Some? {
      calls', callId' := Tally(content, calls, callId, next.value);
      content' := content + [next.value];
    }
  }

  /** The loop over the parts of one message; the calls so far are the counter. */
  method ReadParts(block: (Json, nat) -> Option<ContentBlock>, bad: Json -> bool, parts: seq<Json>)
    returns (content: seq<ContentBlock>, calls: seq<ToolCall>, callId: string, unsupported: bool)
    ensures content == Numbering(block, parts) && calls == CallsOf(content) && callId == LastResult(content)
    ensures unsupported <==> exists i | 0 <= i < |parts| :: bad(parts[i])
  {
    content, calls, callId, unsupported := [], [], "", false;
    for i := 0 to |parts|
      invariant content == Numbering(block, parts[..i])
      invariant calls == CallsOf(content) && callId == LastResult(content)
      invariant unsupported <==> AnyOf(bad, parts, i)
    {
      AnyOfNext(bad, parts, i);
      content, calls, callId := ReadPart(block, parts, i, content, calls, callId);
      unsupported := unsupported || bad(parts[i]);
    }
    assert parts[..|parts|] == parts;
  }

  method ParseParts(c: Codec, parts: seq<Json>)
    returns (content: seq<ContentBlock>, calls: seq<ToolCall>, callId: string, unsupported: bool)
    ensures content == Blocks(c, parts) && calls == CallsOf(content) && callId == LastResult(content)
    ensures unsupported <==> BadParts(parts)
  {
    content, calls, callId, unsupported := ReadParts((part: Json, uses: nat) => Block(c, part, uses), BadPart, parts);
  }

  function RoleIn(role: string): string {
    if role == "model" then "assistant" else role
  }

  function MessageOf(c: Codec, m: Json): Option<Message> {
    if !m.Obj? then None
    else
      var content := Blocks(c, Items(m, "parts"));
      Some(Message(RoleIn(Text(m, "role")), content, CallsOf(content), LastResult(content)))
  }

  predicate BadMessage(m: Json) {
    BadParts(Items(m, "parts"))
  }

  function ToolOf(c: Codec, fd: Json): Option<ToolDef> {
    if !fd.Obj? then None
    else Some(ToolDef(Text(fd, "name"), Text(fd, "description"), Parameters(c, fd.At("parameters"))))
  }

  function ToolsOf(c: Codec, t: Json): seq<ToolDef> {
    FilterMap(fd => ToolOf(c, fd), Items(t, "functionDeclarations"))
  }

  function AllTools(c: Codec, items: seq<Json>): seq<ToolDef> {
    Flatten(Map(t => ToolsOf(c, t), items))
  }

  predicate AnyBad(items: seq<Json>) {
    exists i | 0 <= i < |items| :: BadMessage(items[i])
  }

  function Parse(c: Codec, doc: Json): ChatRequest {
    var messages, gc := Items(doc, "contents"), doc.At("generationConfig");
    ChatRequest(Text(doc, "model"), Lines(FilterMap(StringText, Items(doc.At("systemInstruction"), "parts"))),
                FilterMap(m => MessageOf(c, m), messages), AllTools(c, Items(doc, "tools")),
                false, IntOr(gc.At("maxOutputTokens"), MAX_TOKENS), Number(gc.At("temperature")),
                Number(gc.At("topP")), Strings(Items(gc, "stopSequences")), "", AnyBad(messages))
  }

  // ---- Serializing ----

  function RoleOut(role: string): string {
    if role == "assistant" then "model" else role
  }

  function ResponseJson(c: Codec, text: string): Json {
    match c.parse(CStr(text))
    case Some(Obj(m)) => Obj(m)
    case _ => Obj(map["result" := CText(text)])
  }

  function BlockJson(c: Codec, b: ContentBlock): Json {
    match b.kind
    case TextKind => Obj(map["text" := CText(b.text)])
    case ToolUse => Obj(map["functionCall" := Obj(map["name" := CText(b.toolName),
                                                     "args" := ParseObject(c, CStr(b.toolArguments))])])
    case ToolResult => Obj(map["functionResponse" := Obj(map["name" := CText(b.toolName),
                                                            "response" := ResponseJson(c, b.text)])])
    case ImageKind => Obj(map[])
  }

  function MessageJson(c: Codec, m: Message): Json {
    Obj(map["role" := CText(RoleOut(m.role)), "parts" := Arr(Map(b => BlockJson(c, b), m.content))])
  }

  function ConfigFields(r: ChatRequest): Fields {
    [("maxOutputTokens", When(r.maxTokens > 0, Int(r.maxTokens))),
     ("temperature", WhenSet(r.temperature)),
     ("topP", WhenSet(r.topP)),
     ("stopSequences", When(r.stop != [], Arr(Map(CText, r.stop))))]
  }

  function ObjectOnly(parsed: Option<Json>): Option<Json> {
    if parsed.Some? && parsed.value.Obj? then parsed else None
  }

  function ToolFields(c: Codec, t: ToolDef): Fields {
    [("name", Some(CText(t.name))),
     ("description", WhenText(t.description)),
     ("parameters", ObjectOnly(Parsed(c, t.parametersJson)))]
  }

  function ToolJson(c: Codec, t: ToolDef): Json {
    Document(ToolFields(c, t))
  }

  function Declarations(c: Codec, tools: seq<ToolDef>): Json {
    Obj(map["functionDeclarations" := Arr(Map(t => ToolJson(c, t), tools))])
  }

  function RequestFields(c: Codec, r: ChatRequest): Fields {
    [("systemInstruction", When(r.system != "", Obj(map["parts" := Arr([Obj(map["text" := CText(r.system)])])]))),
     ("contents", Some(Arr(Map(m => MessageJson(c, m), r.messages)))),
     ("generationConfig", When(Members(ConfigFields(r)) != map[], Document(ConfigFields(r)))),
     ("tools", When(r.tools != [], Arr([Declarations(c, r.tools)])))]
  }

  function Serialize(c: Codec, r: ChatRequest): Json {
    Document(RequestFields(c, r))
  }

  // ---- The round trip ----

  lemma PartBack(c: Codec, b: ContentBlock, uses: nat)
    requires b.kind == TextKind && '\0' !in b.text
    ensures Block(c, BlockJson(c, b), uses) == Some(TextOnly(b.text)) && !BadPart(BlockJson(c, b))
  {
  }

  lemma {:induction false} NumberingAll(block: (Json, nat) -> Option<ContentBlock>, parts: seq<Json>,
                                        content: seq<ContentBlock>)
    requires |parts| == |content|
    requires forall i, uses | 0 <= i < |parts| :: block(parts[i], uses) == Some(content[i])
    ensures Numbering(block, parts) == content
  {
    if parts != [] {
      var n := |parts| - 1;
      NumberingAll(block, parts[..n], content[..n]);
      assert content == content[..n] + [content[n]];
    }
  }

  lemma PartsBack(c: Codec, content: seq<ContentBlock>)
    requires AllText(content)
    ensures Blocks(c, Map(b => BlockJson(c, b), content)) == Map((b: ContentBlock) => TextOnly(b.text), content)
    ensures !BadParts(Map(b => BlockJson(c, b), content))
  {
    var parts := Map(b => BlockJson(c, b), content);
    forall i, uses: nat | 0 <= i < |parts|
      ensures Block(c, parts[i], uses) == Some(TextOnly(content[i].text)) && !BadPart(parts[i])
    {
      PartBack(c, content[i], uses);
    }
    NumberingAll((part: Json, uses: nat) => Block(c, part, uses), parts, Map((b: ContentBlock) => TextOnly(b.text), content));
  }

  /** A message back from this format: the same texts, block by block, and no tool-call id. */
  function Kept(m: Message): Message {
    Message(m.role, Map((b: ContentBlock) => TextOnly(b.text), m.content), [], "")
  }

  lemma KeptSaysTheSame(m: Message)
    requires PlainMessage(m)
    ensures PlainMessage(Kept(m)) && Turn(Kept(m)) == Turn(m)
  {
    AllTexts(m.content);
    AllTexts(Kept(m).content);
    assert TextsOf(Kept(m).content) == TextsOf(m.content);
  }

  lemma MessageShape(c: Codec, m: Message)
    ensures var j := MessageJson(c, m);
            j.At("role") == CText(RoleOut(m.role)) && Items(j, "parts") == Map(b => BlockJson(c, b), m.content)
  {
  }

  lemma MessageBack(c: Codec, m: Message)
    requires PlainMessage(m)
    ensures MessageOf(c, MessageJson(c, m)) == Some(Kept(m)) && !BadMessage(MessageJson(c, m))
  {
    MessageShape(c, m);
    PartsBack(c, m.content);
    NoResult(Kept(m).content);
  }

  lemma MessagesAgain(c: Codec, messages: seq<Message>)
    requires forall i | 0 <= i < |messages| :: PlainMessage(messages[i])
    ensures var items := Map(m => MessageJson(c, m), messages);
            FilterMap(m => MessageOf(c, m), items) == Map(Kept, messages) && !AnyBad(items)
    ensures forall i | 0 <= i < |messages| ::
              PlainMessage(Map(Kept, messages)[i]) && Turn(Map(Kept, messages)[i]) == Turn(messages[i])
  {
    var items := Map(m => MessageJson(c, m), messages);
    forall i | 0 <= i < |items| ensures MessageOf(c, items[i]) == Some(Kept(messages[i])) && !BadMessage(items[i]) {
      MessageBack(c, messages[i]);
    }
    forall i | 0 <= i < |messages|
      ensures PlainMessage(Map(Kept, messages)[i]) && Turn(Map(Kept, messages)[i]) == Turn(messages[i])
    {
      KeptSaysTheSame(messages[i]);
    }
    FilterMapAll(m => MessageOf(c, m), items, Map(Kept, messages));
  }

  lemma ToolBack(c: Codec, t: ToolDef)
    requires CleanTool(t)
    ensures ToolOf(c, ToolJson(c, t)) == Some(ToolAgain(c, t))
  {
    var fields := ToolFields(c, t);
    FieldAt(fields, 0);
    FieldAt(fields, 1);
    FieldAt(fields, 2);
  }

  lemma ToolsAgain(c: Codec, tools: seq<ToolDef>)
    requires forall i | 0 <= i < |tools| :: CleanTool(tools[i])
    ensures ToolsOf(c, Declarations(c, tools)) == Map(t => ToolAgain(c, t), tools)
  {
    var items := Map(t => ToolJson(c, t), tools);
    forall i | 0 <= i < |items| ensures ToolOf(c, items[i]) == Some(ToolAgain(c, tools[i])) {
      ToolBack(c, tools[i]);
    }
    FilterMapAll(t => ToolOf(c, t), items, Map(t => ToolAgain(c, t), tools));
    assert Items(Declarations(c, tools), "functionDeclarations") == items;
  }

  lemma FieldsBack(c: Codec, r: ChatRequest)
    ensures var doc := Serialize(c, r);
            && Items(doc, "contents") == Map(m => MessageJson(c, m), r.messages)
            && Items(doc, "tools") == (if r.tools != [] then [Declarations(c, r.tools)] else [])
            && Items(doc.At("systemInstruction"), "parts")
            == (if r.system != "" then [Obj(map["text" := CText(r.system)])] else [])
  {
    var fields := RequestFields(c, r);
    FieldAt(fields, 0);
    FieldAt(fields, 1);
    FieldAt(fields, 3);
  }

  lemma ConfigBack(c: Codec, r: ChatRequest, gc: Json)
    requires gc == Document(ConfigFields(r)) || (gc == Null && Members(ConfigFields(r)) == map[])
    ensures IntOr(gc.At("maxOutputTokens"), MAX_TOKENS) == Limit(r.maxTokens)
    ensures Number(gc.At("temperature")) == r.temperature && Number(gc.At("topP")) == r.topP
    ensures Items(gc, "stopSequences") == Map(CText, r.stop)
  {
    var fields := ConfigFields(r);
    FieldAt(fields, 0);
    FieldAt(fields, 1);
    FieldAt(fields, 2);
    FieldAt(fields, 3);
  }

  lemma SettingsBack(c: Codec, r: ChatRequest)
    ensures var back := Parse(c, Serialize(c, r));
            && back.maxTokens == Limit(r.maxTokens) && back.temperature == r.temperature && back.topP == r.topP
            && back.stop == Map(CStr, r.stop)
  {
    var fields := RequestFields(c, r);
    FieldAt(fields, 2);
    ConfigBack(c, r, Serialize(c, r).At("generationConfig"));
    StringsBack(r.stop);
  }

  lemma NoModel(c: Codec, r: ChatRequest)
    ensures Parse(c, Serialize(c, r)).model == ""
  {
    FieldAbsent(RequestFields(c, r), "model");
  }

  lemma SystemBack(c: Codec, r: ChatRequest)
    requires '\0' !in r.system
    ensures Lines(FilterMap(StringText, Items(Serialize(c, r).At("systemInstruction"), "parts"))) == r.system
  {
    FieldsBack(c, r);
    if r.system != "" {
      var part := Obj(map["text" := CText(r.system)]);
      FilterMapAll(StringText, [part], [r.system]);
      LinesOne(r.system);
    }
  }

  lemma ToolsBack(c: Codec, r: ChatRequest)
    requires Plain(r)
    ensures AllTools(c, Items(Serialize(c, r), "tools")) == Map(t => ToolAgain(c, t), r.tools)
  {
    FieldsBack(c, r);
    ToolsAgain(c, r.tools);
    var tools := Map(t => ToolsOf(c, t), Items(Serialize(c, r), "tools"));
    if r.tools != [] {
      assert tools == [Map(t => ToolAgain(c, t), r.tools)];
      FlattenOne(Map(t => ToolAgain(c, t), r.tools));
    }
  }

  lemma ContentsBack(c: Codec, r: ChatRequest)
    requires Plain(r)
    ensures var back := Parse(c, Serialize(c, r));
            && back.system == r.system
            && back.messages == Map(Kept, r.messages)
            && back.tools == Map(t => ToolAgain(c, t), r.tools)
            && !back.unsupported
  {
    SystemBack(c, r);
    ToolsBack(c, r);
    FieldsBack(c, r);
    MessagesAgain(c, r.messages);
  }

  lemma RoundTrip(c: Codec, r: ChatRequest)
    requires Lawful(c) && Plain(r)
    ensures var back := Parse(c, Serialize(c, r));
            Plain(back) && SaidBy(c, back) == SaidBy(c, r)
  {
    ContentsBack(c, r);
    SettingsBack(c, r);
    MessagesAgain(c, r.messages);
    forall t | CleanTool(t)
      ensures CleanTool(ToolAgain(c, t)) && ToolSaid(c, ToolAgain(c, t)) == ToolSaid(c, t)
    {
      ToolSaysTheSame(c, t);
    }
    AgainAll(c, r.tools, t => ToolAgain(c, t));
    SaidAgain(c, r, Map(Kept, r.messages), Map(t => ToolAgain(c, t), r.tools), Parse(c, Serialize(c, r)));
  }

  // ---- Strings without NUL ----

  lemma BlockClean(c: Codec, part: Json, uses: nat)
    ensures Block(c, part, uses).Some? ==> CleanBlock(Block(c, part, uses).value)
  {
  }

  lemma {:induction false} NumberingClean(block: (Json, nat) -> Option<ContentBlock>, parts: seq<Json>)
    requires forall part, uses :: block(part, uses).Some? ==> CleanBlock(block(part, uses).value)
    ensures forall i | 0 <= i < |Numbering(block, parts)| :: CleanBlock(Numbering(block, parts)[i])
  {
    if parts != [] {
      NumberingClean(block, parts[..|parts| - 1]);
    }
  }

  lemma MessageClean(c: Codec, m: Json)
    ensures MessageOf(c, m).Some? ==> CleanMessage(MessageOf(c, m).value)
  {
    var block := (part: Json, uses: nat) => Block(c, part, uses);
    forall part, uses: nat ensures block(part, uses).Some? ==> CleanBlock(block(part, uses).value) {
      BlockClean(c, part, uses);
    }
    NumberingClean(block, Items(m, "parts"));
    LastResultClean(Blocks(c, Items(m, "parts")));
  }

  lemma {:induction false} ToolsClean(c: Codec, items: seq<Json>)
    requires Lawful(c)
    ensures var tools := AllTools(c, items);
            forall i | 0 <= i < |tools| :: CleanTool(tools[i])
  {
    if items != [] {
      var n := |items| - 1;
      ToolsClean(c, items[..n]);
      assert Map(t => ToolsOf(c, t), items)[..n] == Map(t => ToolsOf(c, t), items[..n]);
      assert AllTools(c, items) == AllTools(c, items[..n]) + ToolsOf(c, items[n]);
      FilterMapForall(fd => ToolOf(c, fd), Items(items[n], "functionDeclarations"), CleanTool);
    }
  }

  lemma ParsedClean(c: Codec, doc: Json)
    requires Lawful(c)
    ensures CleanRequest(Parse(c, doc))
  {
    forall m ensures MessageOf(c, m).Some? ==> CleanMessage(MessageOf(c, m).value) { MessageClean(c, m); }
    FilterMapForall(m => MessageOf(c, m), Items(doc, "contents"), CleanMessage);
    ParsedLinesClean(StringText, Items(doc.At("systemInstruction"), "parts"));
    ToolsClean(c, Items(doc, "tools"));
  }
}
