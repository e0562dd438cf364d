/** Requests of the Responses format. */
module ResponsesRequests {
  import opened Seqs
  import opened Json
  import opened Responses
  import opened ChatIr
  import opened Fields

  // ---- Parsing ----

  function Part(part: Json): Option<ContentBlock> {
    var kind := Text(part, "type");
    if kind == "input_text" || kind == "text" || kind == "output_text" then Some(TextOnly(Text(part, "text"))) else None
  }

  predicate BadPart(part: Json) {
    part.Obj? && Part(part).None?
  }

  function Parts(j: Json): seq<ContentBlock> {
    match j
    case Str(s) => [TextOnly(CStr(s))]
    case Arr(items) => FilterMap(Part, items)
    case _ => []
  }

  predicate BadParts(j: Json) {
    j.Arr? && exists i | 0 <= i < |j.items| :: BadPart(j.items[i])
  }

  predicate IsTurn(item: Json) {
    item.Obj? && (Text(item, "type") == "message" || item.Has("role"))
  }

  function RoleOf(item: Json): string {
    if Text(item, "role") == "" then "user" else Text(item, "role")
  }

  predicate IsSystem(item: Json) {
    IsTurn(item) && (RoleOf(item) == "system" || RoleOf(item) == "developer")
  }

  function SystemText(item: Json): Option<string> {
    if IsSystem(item) && item.At("content").Str? then Some(Text(item, "content")) else None
  }

  function MessageOf(item: Json): Option<Message> {
    if IsTurn(item) then
      if IsSystem(item) then None else Some(Message(RoleOf(item), Parts(item.At("content")), [], ""))
    else if Text(item, "type") == "function_call" then
      Some(Message("assistant", [], [ToolCall(Text(item, "call_id"), Text(item, "name"), Text(item, "arguments"))], ""))
    else if Text(item, "type") == "function_call_output" then
      Some(Message("tool", [TextOnly(Text(item, "output"))], [], Text(item, "call_id")))
    else None
  }

  predicate BadMessage(item: Json) {
    IsTurn(item) && !IsSystem(item) && BadParts(item.At("content"))
  }

  function ToolOf(c: Codec, t: Json): Option<ToolDef> {
    if Text(t, "type") != "function" then None
    else Some(ToolDef(Text(t, "name"), Text(t, "description"), Parameters(c, t.At("parameters"))))
  }

  predicate AnyBad(items: seq<Json>) {
    exists i | 0 <= i < |items| :: BadMessage(items[i])
  }

  function MessagesOf(input: Json): seq<Message> {
    match input
    case Str(s) => [Message("user", [TextOnly(CStr(s))], [], "")]
    case Arr(items) => FilterMap(MessageOf, items)
    case _ => []
  }

  function MaxTokens(doc: Json): int32 {
    IntOr(doc.At("max_output_tokens"), IntOr(doc.At("max_tokens"), MAX_TOKENS))
  }

  function Parse(c: Codec, doc: Json): ChatRequest {
    var items := Items(doc, "input");
    ChatRequest(Text(doc, "model"), Lines([Text(doc, "instructions")] + FilterMap(SystemText, items)),
                MessagesOf(doc.At("input")), FilterMap(t => ToolOf(c, t), Items(doc, "tools")),
                IsTrue(doc.At("stream")), MaxTokens(doc), Number(doc.At("temperature")), Number(doc.At("top_p")), [],
                Text(doc.At("metadata"), "user_id"), AnyBad(items))
  }

  // ---- Serializing ----

  function CallJson(tc: ToolCall): Json {
    ResponsesCallJson(tc)
  }

  function OutputFields(m: Message): Fields {
    [("type", Some(Str("function_call_output"))),
     ("call_id", Some(CText(m.toolCallId))),
     ("output", Some(CText(Lines(TextsOf(m.content)))))]
  }

  function OutputJson(m: Message): Json {
    Document(OutputFields(m))
  }

  function InputPart(m: Message): Json {
    Obj(map["type" := Str("input_text"), "text" := CText(Lines(TextsOf(m.content)))])
  }

  function TurnFields(m: Message): Fields {
    [("type", Some(Str("message"))),
     ("role", Some(CText(m.role))),
     ("content", Some(Arr([InputPart(m)])))]
  }

  function TurnJson(m: Message): Json {
    Document(TurnFields(m))
  }

  predicate IsOutput(m: Message) {
    m.role == "tool" && m.toolCallId != ""
  }

  function ItemJson(m: Message): Json {
    if IsOutput(m) then OutputJson(m) else TurnJson(m)
  }

  /** A message with calls goes out as its calls alone. */
  function ItemsOf(m: Message): seq<Json> {
    if m.toolCalls != [] then Map(CallJson, m.toolCalls) else [ItemJson(m)]
  }

  function ToolFields(c: Codec, t: ToolDef): Fields {
    [("type", Some(Str("function"))),
     ("name", Some(CText(t.name))),
     ("description", WhenText(t.description)),
     ("parameters", Parsed(c, t.parametersJson))]
  }

  function ToolJson(c: Codec, t: ToolDef): Json {
    Document(ToolFields(c, t))
  }

  function RequestFields(c: Codec, r: ChatRequest): Fields {
    [("model", Some(CText(r.model))),
     ("instructions", WhenText(r.system)),
     ("input", Some(Arr(Flatten(Map(ItemsOf, r.messages))))),
     ("stream", When(r.stream, Bool(true))),
     ("max_output_tokens", When(r.maxTokens > 0, Int(r.maxTokens))),
     ("temperature", WhenSet(r.temperature)),
     ("top_p", WhenSet(r.topP)),
     ("tools", When(r.tools != [], Arr(Map(t => ToolJson(c, t), r.tools)))),
     ("metadata", When(r.userId != "", Obj(map["user_id" := CText(r.userId)])))]
  }

  function Serialize(c: Codec, r: ChatRequest): Json {
    Document(RequestFields(c, r))
  }

  method PushCalls(input: seq<Json>, calls: seq<ToolCall>) returns (out: seq<Json>)
    ensures out == input + Map(CallJson, calls)
  {
    out := input;
    for k := 0 to |calls|
      invariant out == input + Map(CallJson, calls)[..k]
    {
      out := out + [CallJson(calls[k])];
    }
  }

  /** The loop that builds the input items. */
  method BuildInput(messages: seq<Message>) returns (input: seq<Json>)
    ensures input == Flatten(Map(ItemsOf, messages))
  {
    input := [];
    for i := 0 to |messages|
      invariant input == Flatten(Map(ItemsOf, messages[..i]))
    {
      FlattenMapSnoc(ItemsOf, messages, i);
      if messages[i].toolCalls != [] {
        input := PushCalls(input, messages[i].toolCalls);
      } else {
        input := input + [ItemJson(messages[i])];
      }
    }
    assert messages[..|messages|] == messages;
  }

  // ---- The round trip ----

  /** A message back from this format: its texts joined; the call id stays on tool outputs only. */
  function Kept(m: Message): Message {
    if IsOutput(m) then Joined(m) else Joined(m).(toolCallId := "")
  }

  lemma OutputShape(m: Message)
    requires PlainMessage(m)
    ensures var j := OutputJson(m);
            && Text(j, "type") == "function_call_output" && !j.Has("role")
            && Text(j, "call_id") == m.toolCallId && Text(j, "output") == Lines(TextsOf(m.content))
  {
    TextsClean(m.content);
    var fields := OutputFields(m);
    FieldAt(fields, 0);
    FieldAt(fields, 1);
    FieldAt(fields, 2);
    FieldAbsent(fields, "role");
  }

  lemma OutputBack(m: Message)
    requires PlainMessage(m) && IsOutput(m)
    ensures MessageOf(OutputJson(m)) == Some(Joined(m))
    ensures SystemText(OutputJson(m)).None? && !BadMessage(OutputJson(m))
  {
    OutputShape(m);
    assert !IsTurn(OutputJson(m));
  }

  lemma TurnShape(m: Message)
    requires PlainMessage(m)
    ensures var j := TurnJson(m);
            IsTurn(j) && RoleOf(j) == m.role && j.At("content") == Arr([InputPart(m)])
  {
    var fields := TurnFields(m);
    FieldAt(fields, 0);
    FieldAt(fields, 1);
    FieldAt(fields, 2);
  }

  lemma PartBack(m: Message)
    requires PlainMessage(m)
    ensures Part(InputPart(m)) == Some(TextOnly(Lines(TextsOf(m.content))))
  {
    TextsClean(m.content);
  }

  lemma TurnBack(m: Message)
    requires PlainMessage(m) && !IsOutput(m)
    ensures MessageOf(TurnJson(m)) == Some(Joined(m).(toolCallId := ""))
    ensures SystemText(TurnJson(m)).None? && !BadMessage(TurnJson(m))
  {
    TurnShape(m);
    PartBack(m);
    FilterMapAll(Part, [InputPart(m)], [TextOnly(Lines(TextsOf(m.content)))]);
  }

  lemma MessagesShape(messages: seq<Message>)
    requires forall i | 0 <= i < |messages| :: PlainMessage(messages[i])
    ensures Flatten(Map(ItemsOf, messages)) == Map(ItemJson, messages)
    ensures forall i | 0 <= i < |messages| ::
              var j := Map(ItemJson, messages)[i];
              MessageOf(j) == Some(Kept(messages[i])) && SystemText(j).None? && !BadMessage(j)
  {
    FlattenSingles(messages, ItemsOf, ItemJson);
    forall i | 0 <= i < |messages|
      ensures var j := Map(ItemJson, messages)[i];
              MessageOf(j) == Some(Kept(messages[i])) && SystemText(j).None? && !BadMessage(j)
    {
      if IsOutput(messages[i]) {
        OutputBack(messages[i]);
      } else {
        TurnBack(messages[i]);
      }
    }
  }

  lemma MessagesAgain(r: ChatRequest)
    requires Plain(r)
    ensures FilterMap(MessageOf, Map(ItemJson, r.messages)) == Map(Kept, r.messages)
    ensures !AnyBad(Map(ItemJson, r.messages))
    ensures FilterMap(SystemText, Map(ItemJson, r.messages)) == []
  {
    MessagesShape(r.messages);
    FilterMapAll(MessageOf, Map(ItemJson, r.messages), Map(Kept, r.messages));
    FilterMapNone(SystemText, Map(ItemJson, r.messages));
  }

  lemma ToolBack(c: Codec, t: ToolDef)
    requires CleanTool(t)
    ensures ToolOf(c, ToolJson(c, t)) == Some(ToolAgain(c, t))
  {
    var fields := ToolFields(c, t);
    FieldAt(fields, 0);
    FieldAt(fields, 1);
    FieldAt(fields, 2);
    FieldAt(fields, 3);
  }

  lemma FieldsBack(c: Codec, r: ChatRequest)
    ensures var doc := Serialize(c, r);
            && doc.At("model") == CText(r.model)
            && doc.At("instructions") == OrNull(WhenText(r.system))
            && doc.At("input") == Arr(Flatten(Map(ItemsOf, r.messages)))
            && Items(doc, "tools") == Map(t => ToolJson(c, t), r.tools)
            && IsTrue(doc.At("stream")) == r.stream
            && MaxTokens(doc) == Limit(r.maxTokens)
  {
    var fields := RequestFields(c, r);
    FieldAt(fields, 0);
    FieldAt(fields, 1);
    FieldAt(fields, 2);
    FieldAt(fields, 3);
    FieldAt(fields, 4);
    FieldAt(fields, 7);
    FieldAbsent(fields, "max_tokens");
  }

  lemma SettingsBack(c: Codec, r: ChatRequest)
    ensures var doc := Serialize(c, r);
            && Number(doc.At("temperature")) == r.temperature
            && Number(doc.At("top_p")) == r.topP
            && Text(doc.At("metadata"), "user_id") == CStr(r.userId)
  {
    var fields := RequestFields(c, r);
    FieldAt(fields, 5);
    FieldAt(fields, 6);
    FieldAt(fields, 8);
  }

  lemma SystemBack(c: Codec, r: ChatRequest)
    requires Plain(r)
    ensures var doc := Serialize(c, r);
            Lines([Text(doc, "instructions")] + FilterMap(SystemText, Items(doc, "input"))) == r.system
  {
    FieldsBack(c, r);
    MessagesShape(r.messages);
    MessagesAgain(r);
    LinesOne(r.system);
    assert [r.system] + [] == [r.system];
  }

  lemma InputBack(c: Codec, r: ChatRequest)
    requires Plain(r)
    ensures var doc := Serialize(c, r);
            MessagesOf(doc.At("input")) == Map(Kept, r.messages) && !AnyBad(Items(doc, "input"))
  {
    FieldsBack(c, r);
    MessagesShape(r.messages);
    MessagesAgain(r);
  }

  lemma PartsBack(c: Codec, r: ChatRequest)
    requires Plain(r)
    ensures var back := Parse(c, Serialize(c, r));
            && back.system == r.system
            && back.messages == Map(Kept, r.messages)
            && back.tools == Map(t => ToolAgain(c, t), r.tools)
            && !back.unsupported
            && back.model == CStr(r.model) && back.stream == r.stream && back.maxTokens == Limit(r.maxTokens)
  {
    SystemBack(c, r);
    InputBack(c, r);
    FieldsBack(c, r);
    forall t | CleanTool(t) ensures ToolOf(c, ToolJson(c, t)) == Some(ToolAgain(c, t)) { ToolBack(c, t); }
    ToolsAgain(t => ToolOf(c, t), t => ToolJson(c, t), t => ToolAgain(c, t), r.tools);
  }

  lemma RestBack(c: Codec, r: ChatRequest)
    ensures var back := Parse(c, Serialize(c, r));
            back.temperature == r.temperature && back.topP == r.topP && back.userId == CStr(r.userId)
  {
    SettingsBack(c, r);
  }

  lemma KeptAll(messages: seq<Message>)
    requires forall i | 0 <= i < |messages| :: PlainMessage(messages[i])
    ensures forall i | 0 <= i < |messages| ::
              PlainMessage(Map(Kept, messages)[i]) && Turn(Map(Kept, messages)[i]) == Turn(messages[i])
  {
    JoinedAll(messages);
    forall i | 0 <= i < |messages|
      ensures PlainMessage(Map(Kept, messages)[i]) && Turn(Map(Kept, messages)[i]) == Turn(messages[i])
    {
      assert PlainMessage(Map(Joined, messages)[i]);
    }
  }

  lemma RoundTrip(c: Codec, r: ChatRequest)
    requires Lawful(c) && Plain(r)
    ensures var back := Parse(c, Serialize(c, r));
            Plain(back) && SaidBy(c, back) == SaidBy(c, r)
  {
    PartsBack(c, r);
    RestBack(c, r);
    forall t | CleanTool(t)
      ensures CleanTool(ToolAgain(c, t)) && ToolSaid(c, ToolAgain(c, t)) == ToolSaid(c, t)
    {
      ToolSaysTheSame(c, t);
    }
    AgainAll(c, r.tools, t => ToolAgain(c, t));
    KeptAll(r.messages);
    SaidAgain(c, r, Map(Kept, r.messages), Map(t => ToolAgain(c, t), r.tools), Parse(c, Serialize(c, r)));
  }

  // ---- Strings without NUL ----

  lemma PartsClean(j: Json)
    ensures forall i | 0 <= i < |Parts(j)| :: CleanBlock(Parts(j)[i])
  {
    if j.Arr? {
      FilterMapForall(Part, j.items, CleanBlock);
    }
  }

  lemma MessageClean(item: Json)
    ensures MessageOf(item).Some? ==> CleanMessage(MessageOf(item).value)
  {
    PartsClean(item.At("content"));
  }

  lemma InputClean(input: Json)
    ensures forall i | 0 <= i < |MessagesOf(input)| :: CleanMessage(MessagesOf(input)[i])
  {
    if input.Arr? {
      forall item ensures MessageOf(item).Some? ==> CleanMessage(MessageOf(item).value) { MessageClean(item); }
      FilterMapForall(MessageOf, input.items, CleanMessage);
    }
  }

  lemma SystemClean(doc: Json)
    ensures Clean(Lines([Text(doc, "instructions")] + FilterMap(SystemText, Items(doc, "input"))))
  {
    FilterMapForall(SystemText, Items(doc, "input"), Clean);
    LinesClean([Text(doc, "instructions")] + FilterMap(SystemText, Items(doc, "input")));
  }

  lemma ParsedClean(c: Codec, doc: Json)
    requires Lawful(c)
    ensures CleanRequest(Parse(c, doc))
  {
    SystemClean(doc);
    InputClean(doc.At("input"));
    FilterMapForall(t => ToolOf(c, t), Items(doc, "tools"), CleanTool);
  }
}
