/** The intermediate form in which the four request formats meet, and what a plain request says. */
module ChatIr {
  import opened Seqs
  import opened Json
  import opened Responses

  datatype BlockKind = TextKind | ImageKind | ToolUse | ToolResult

  datatype ContentBlock = ContentBlock(kind: BlockKind, text: string, toolCallId: string, toolName: string,
                                       toolArguments: string)

  datatype Message = Message(role: string, content: seq<ContentBlock>, toolCalls: seq<ToolCall>, toolCallId: string)

  datatype ToolDef = ToolDef(name: string, description: string, parametersJson: string)

  datatype ChatRequest = ChatRequest(model: string, system: string, messages: seq<Message>, tools: seq<ToolDef>,
                                     stream: bool, maxTokens: int32, temperature: Option<Float>, topP: Option<Float>,
                                     stop: seq<string>, userId: string, unsupported: bool)

  const MAX_TOKENS: int32 := 4096

  function EmptyRequest(): ChatRequest {
    ChatRequest("", "", [], [], false, MAX_TOKENS, None, None, [], "", false)
  }

  function TextOnly(text: string): ContentBlock {
    ContentBlock(TextKind, text, "", "", "")
  }

  // ---- Lines ----

  /** Append a line: the separator goes in only once there is something to separate. */
  function AddLine(out: string, line: string): string {
    (if out != "" then out + "\n" else out) + line
  }

  function Lines(parts: seq<string>): string {
    if parts == [] then "" else AddLine(Lines(parts[..|parts| - 1]), parts[|parts| - 1])
  }

  lemma LinesSnoc(parts: seq<string>, last: string)
    ensures Lines(parts + [last]) == AddLine(Lines(parts), last)
  {
    assert (parts + [last])[..|parts|] == parts;
  }

  lemma LinesOne(line: string)
    ensures Lines([line]) == line
  {
    assert [line][..0] == [];
  }

  lemma {:induction false} LinesClean(parts: seq<string>)
    requires forall i | 0 <= i < |parts| :: '\0' !in parts[i]
    ensures '\0' !in Lines(parts)
  {
    if parts != [] {
      LinesClean(parts[..|parts| - 1]);
    }
  }

  // ---- Blocks ----

  function TextOf(b: ContentBlock): Option<string> {
    if b.kind == TextKind then Some(b.text) else None
  }

  function TextsOf(content: seq<ContentBlock>): seq<string> {
    FilterMap(TextOf, content)
  }

  /** `text_content`. */
  method TextContent(content: seq<ContentBlock>) returns (out: string)
    ensures out == Lines(TextsOf(content))
  {
    out := "";
    for i := 0 to |content|
      invariant out == Lines(TextsOf(content[..i]))
    {
      FilterMapSnoc(TextOf, content, i);
      if content[i].kind == TextKind {
        LinesSnoc(TextsOf(content[..i]), content[i].text);
        if out != "" {
          out := out + "\n";
        }
        out := out + content[i].text;
      } else {
        assert TextsOf(content[..i + 1]) == TextsOf(content[..i]);
      }
    }
    assert content[..|content|] == content;
  }

  function CallOfBlock(b: ContentBlock): Option<ToolCall> {
    if b.kind == ToolUse then Some(ToolCall(b.toolCallId, b.toolName, b.toolArguments)) else None
  }

  /** The calls that Anthropic and Gemini requests derive from their tool-use blocks. */
  function CallsOf(content: seq<ContentBlock>): seq<ToolCall> {
    FilterMap(CallOfBlock, content)
  }

  /** The id of the last tool result, empty when there is none. */
  function LastResult(content: seq<ContentBlock>): string {
    if content == [] then ""
    else
      var b := content[|content| - 1];
      if b.kind == ToolResult then b.toolCallId else LastResult(content[..|content| - 1])
  }

  // ---- What a plain request says ----

  predicate OrdinaryRole(role: string) {
    role != "" && role != "system" && role != "developer" && role != "model"
  }

  predicate NoTools(m: Message) {
    m.toolCalls == [] && forall i | 0 <= i < |m.content| :: m.content[i].kind == TextKind
  }

  /** No tool calls, no tool blocks, ordinary roles. */
  predicate Ordinary(r: ChatRequest) {
    !r.unsupported && forall i | 0 <= i < |r.messages| :: NoTools(r.messages[i]) && OrdinaryRole(r.messages[i].role)
  }

  predicate CleanBlock(b: ContentBlock) {
    (b.kind == TextKind ==> Clean(b.text)) && Clean(b.toolCallId)
  }

  predicate CleanMessage(m: Message) {
    Clean(m.role) && Clean(m.toolCallId) && forall i | 0 <= i < |m.content| :: CleanBlock(m.content[i])
  }

  predicate CleanTool(t: ToolDef) {
    Clean(t.name) && Clean(t.description) && Clean(t.parametersJson)
  }

  /** Strings without NUL, as every parser produces them. */
  predicate CleanRequest(r: ChatRequest) {
    && Clean(r.system)
    && (forall i | 0 <= i < |r.messages| :: CleanMessage(r.messages[i]))
    && (forall i | 0 <= i < |r.tools| :: CleanTool(r.tools[i]))
  }

  predicate AllText(content: seq<ContentBlock>) {
    forall i | 0 <= i < |content| :: content[i].kind == TextKind && Clean(content[i].text)
  }

  predicate PlainMessage(m: Message) {
    m.toolCalls == [] && AllText(m.content) && OrdinaryRole(m.role) && Clean(m.role) && Clean(m.toolCallId)
  }

  predicate Plain(r: ChatRequest) {
    && !r.unsupported
    && Clean(r.system)
    && (forall i | 0 <= i < |r.messages| :: PlainMessage(r.messages[i]))
    && (forall i | 0 <= i < |r.tools| :: CleanTool(r.tools[i]))
  }

  lemma PlainExactly(r: ChatRequest)
    requires CleanRequest(r)
    ensures Plain(r) <==> Ordinary(r)
  {
    forall i | 0 <= i < |r.messages|
      ensures PlainMessage(r.messages[i]) <==> NoTools(r.messages[i]) && OrdinaryRole(r.messages[i].role)
    {
      assert CleanMessage(r.messages[i]);
    }
  }

  datatype Said = Said(system: string, turns: seq<(string, string)>, tools: seq<(string, string, Json)>,
                       maxTokens: int32, temperature: Option<Float>, topP: Option<Float>)

  function Turn(m: Message): (string, string) {
    (m.role, Lines(TextsOf(m.content)))
  }

  function ToolSaid(c: Codec, t: ToolDef): (string, string, Json) {
    (t.name, t.description, ParseObject(c, t.parametersJson))
  }

  function Limit(n: int32): int32 {
    if n > 0 then n else MAX_TOKENS
  }

  /** System text, roles and texts in order, tools with their parameter objects, and the sampling settings. */
  function SaidBy(c: Codec, r: ChatRequest): Said {
    Said(r.system, Map(Turn, r.messages), Map(t => ToolSaid(c, t), r.tools), Limit(r.maxTokens), r.temperature, r.topP)
  }

  lemma {:induction false} AllTexts(content: seq<ContentBlock>)
    requires AllText(content)
    ensures TextsOf(content) == Map((b: ContentBlock) => b.text, content)
  {
    FilterMapAll(TextOf, content, Map((b: ContentBlock) => b.text, content));
  }

  lemma TextsClean(content: seq<ContentBlock>)
    requires AllText(content)
    ensures '\0' !in Lines(TextsOf(content))
  {
    AllTexts(content);
    LinesClean(TextsOf(content));
  }

  lemma {:induction false} NoResult(content: seq<ContentBlock>)
    requires AllText(content)
    ensures LastResult(content) == "" && CallsOf(content) == []
  {
    FilterMapNone(CallOfBlock, content);
    if content != [] {
      NoResult(content[..|content| - 1]);
    }
  }

  // ---- Members shared by the formats ----

  function Number(j: Json): Option<Float> {
    match j
    case Int(n) => Some(Float(n, 0))
    case Double(d) => Some(d)
    case _ => None
  }

  function IntOr(j: Json, otherwise: int32): int32 {
    if j.IsInt() then j.n else otherwise
  }

  function IsTrue(j: Json): bool {
    j == Bool(true)
  }

  function StringItem(j: Json): Option<string> {
    if j.Str? then Some(CStr(j.s)) else None
  }

  function StringText(block: Json): Option<string> {
    if block.At("text").Str? then Some(Text(block, "text")) else None
  }

  function Strings(items: seq<Json>): seq<string> {
    FilterMap(StringItem, items)
  }

  function Parameters(c: Codec, j: Json): string {
    WriteObject(c, j)
  }

  /** What a tool's parameters parse to; None when they are empty or no JSON. */
  function Parsed(c: Codec, text: string): Option<Json> {
    if text == "" then None else c.parse(CStr(text))
  }

  // ---- The loops that fill a request ----

  predicate AnyOf(bad: Json -> bool, items: seq<Json>, n: nat)
    requires n <= |items|
  {
    exists i | 0 <= i < n :: bad(items[i])
  }

  lemma AnyOfNext(bad: Json -> bool, items: seq<Json>, n: nat)
    requires n < |items|
    ensures AnyOf(bad, items, n + 1) <==> AnyOf(bad, items, n) || bad(items[n])
  {
  }

  /** Append what `of` makes of each item, and remember whether any was bad. */
  method CollectAndFlag<T>(of: Json -> Option<T>, bad: Json -> bool, items: seq<Json>)
    returns (out: seq<T>, flagged: bool)
    ensures out == FilterMap(of, items)
    ensures flagged <==> exists i | 0 <= i < |items| :: bad(items[i])
  {
    out, flagged := [], false;
    for i := 0 to |items|
      invariant out == FilterMap(of, items[..i])
      invariant flagged <==> exists k | 0 <= k < i :: bad(items[k])
    {
      FilterMapSnoc(of, items, i);
      var next := of(items[i]);
      if next.Some? {
        out := out + [next.value];
      }
      flagged := flagged || bad(items[i]);
    }
    assert items[..|items|] == items;
  }

  /** One more item: a line of text, or nothing. */
  lemma LineNext(line: Json -> Option<string>, items: seq<Json>, n: nat)
    requires n < |items|
    ensures var before := Lines(FilterMap(line, items[..n]));
            Lines(FilterMap(line, items[..n + 1]))
            == match line(items[n]) case None => before case Some(text) => AddLine(before, text)
  {
    FilterMapSnoc(line, items, n);
    var before := FilterMap(line, items[..n]);
    if line(items[n]).Some? { LinesSnoc(before, line(items[n]).value); } else { assert before + [] == before; }
  }

  /** The loop over messages: some are lines of the system text, the others messages of their own. */
  method ReadMessages(line: Json -> Option<string>, of: Json -> Option<Message>, bad: Json -> bool, items: seq<Json>)
    returns (system: string, messages: seq<Message>, unsupported: bool)
    ensures system == Lines(FilterMap(line, items))
    ensures messages == FilterMap(of, items)
    ensures unsupported <==> AnyOf(bad, items, |items|)
  {
    system, messages, unsupported := "", [], false;
    for i := 0 to |items|
      invariant system == Lines(FilterMap(line, items[..i]))
      invariant messages == FilterMap(of, items[..i])
      invariant unsupported <==> AnyOf(bad, items, i)
    {
      FilterMapSnoc(of, items, i);
      LineNext(line, items, i);
      AnyOfNext(bad, items, i);
      var text, message := line(items[i]), of(items[i]);
      if text.Some? {
        if system != "" {
          system := system + "\n";
        }
        system := system + text.value;
      }
      if message.Some? {
        messages := messages + [message.value];
      }
      unsupported := unsupported || bad(items[i]);
    }
    assert items[..|items|] == items;
  }

  // ---- Content arrays of chat-completions and Anthropic requests ----

  predicate IsText(part: Json) {
    Text(part, "type") == "text"
  }

  function SubText(sub: Json): Option<string> {
    if sub.Has("text") && IsText(sub) then Some(Text(sub, "text")) else None
  }

  predicate BadSub(sub: Json) {
    sub.Obj? && SubText(sub).None?
  }

  /** The text of a tool result: a string, or the text parts of an array. */
  function ResultText(j: Json): string {
    match j
    case Str(s) => CStr(s)
    case Arr(items) => Flatten(FilterMap(SubText, items))
    case _ => ""
  }

  function Block(c: Codec, part: Json): Option<ContentBlock> {
    var kind := Text(part, "type");
    if kind == "text" then Some(TextOnly(Text(part, "text")))
    else if kind == "tool_use" then
      Some(ContentBlock(ToolUse, "", Text(part, "id"), Text(part, "name"), WriteObject(c, part.At("input"))))
    else if kind == "tool_result" then
      Some(ContentBlock(ToolResult, ResultText(part.At("content")), Text(part, "tool_use_id"), "", ""))
    else None
  }

  predicate BadBlock(part: Json) {
    var kind := Text(part, "type");
    && part.Obj?
    && kind != "text" && kind != "tool_use"
    && (kind == "tool_result" ==> exists i | 0 <= i < |Items(part, "content")| :: BadSub(Items(part, "content")[i]))
  }

  function Content(c: Codec, j: Json): seq<ContentBlock> {
    match j
    case Str(s) => [TextOnly(CStr(s))]
    case Arr(items) => FilterMap(part => Block(c, part), items)
    case _ => []
  }

  predicate BadContent(j: Json) {
    j.Arr? && exists i | 0 <= i < |j.items| :: BadBlock(j.items[i])
  }

  /** The loop over a content array. */
  method ExtractBlocks(c: Codec, items: seq<Json>) returns (content: seq<ContentBlock>, unsupported: bool)
    ensures content == Content(c, Arr(items))
    ensures unsupported <==> BadContent(Arr(items))
  {
    content, unsupported := CollectAndFlag(part => Block(c, part), BadBlock, items);
  }

  /** A plain content written as one string is one text block with the same text. */
  lemma OneTextBack(c: Codec, content: seq<ContentBlock>)
    requires AllText(content)
    ensures var text := Lines(TextsOf(content));
            Content(c, CText(text)) == [TextOnly(text)] && Lines(TextsOf([TextOnly(text)])) == text
  {
    var text := Lines(TextsOf(content));
    TextsClean(content);
    TextAlone(text);
  }

  lemma TextAlone(text: string)
    requires '\0' !in text
    ensures Lines(TextsOf([TextOnly(text)])) == text
  {
    AllTexts([TextOnly(text)]);
    LinesOne(text);
    assert TextsOf([TextOnly(text)]) == [text];
  }

  // ---- Lists that are read back item by item ----

  /** Messages written one by one, after items that are no messages. */
  lemma MessagesBack(of: Json -> Option<Message>, lead: seq<Json>, items: seq<Json>, back: seq<Message>)
    requires forall j | j in lead :: of(j).None?
    requires |items| == |back| && forall i | 0 <= i < |back| :: of(items[i]) == Some(back[i])
    ensures FilterMap(of, lead + items) == back
  {
    FilterMapConcat(of, lead, items);
    FilterMapNone(of, lead);
    FilterMapAll(of, items, back);
  }

  lemma StringsBack(stop: seq<string>)
    ensures Strings(Map(CText, stop)) == Map(CStr, stop)
  {
    FilterMapAll(StringItem, Map(CText, stop), Map(CStr, stop));
  }

  /** Items behind a harmless lead are flagged when what they were written from is. */
  lemma FlaggedExactly(bad: Json -> bool, lead: seq<Json>, items: seq<Json>, messages: seq<Message>,
                       lost: Message -> bool)
    requires forall j | j in lead :: !bad(j)
    requires |items| == |messages| && forall i | 0 <= i < |items| :: bad(items[i]) <==> lost(messages[i])
    ensures (exists i | 0 <= i < |lead + items| :: bad((lead + items)[i]))
       <==> exists i | 0 <= i < |messages| :: lost(messages[i])
  {
    var all := lead + items;
    if i :| 0 <= i < |all| && bad(all[i]) {
      assert all[i] in lead || all[i] == items[i - |lead|];
      assert lost(messages[i - |lead|]);
    }
    if i :| 0 <= i < |messages| && lost(messages[i]) {
      assert all[|lead| + i] == items[i];
    }
  }

  /** A message whose texts were joined into one block. */
  function Joined(m: Message): Message {
    m.(content := [TextOnly(Lines(TextsOf(m.content)))])
  }

  lemma JoinedSaysTheSame(m: Message)
    requires PlainMessage(m)
    ensures PlainMessage(Joined(m)) && Turn(Joined(m)) == Turn(m)
  {
    var text := Lines(TextsOf(m.content));
    TextsClean(m.content);
    AllTexts([TextOnly(text)]);
    LinesOne(text);
    assert TextsOf([TextOnly(text)]) == [text];
  }

  /** A tool whose parameters were parsed, written out as an object if they are one, and read again. */
  function ToolAgain(c: Codec, t: ToolDef): ToolDef {
    ToolDef(t.name, t.description, Parameters(c, match Parsed(c, t.parametersJson) case None => Null case Some(j) => j))
  }

  /** A tool whose parameters always go out as an object. */
  function ToolSchema(c: Codec, t: ToolDef): ToolDef {
    ToolDef(t.name, t.description, c.write(ParseObject(c, t.parametersJson)))
  }

  lemma ToolSaysTheSame(c: Codec, t: ToolDef)
    requires Lawful(c) && CleanTool(t)
    ensures CleanTool(ToolAgain(c, t)) && ToolSaid(c, ToolAgain(c, t)) == ToolSaid(c, t)
    ensures CleanTool(ToolSchema(c, t)) && ToolSaid(c, ToolSchema(c, t)) == ToolSaid(c, t)
  {
  }

  /** One line of system text in front of items that have none. */
  lemma SystemAgain(line: Json -> Option<string>, lead: seq<Json>, items: seq<Json>, system: string)
    requires if system == "" then lead == [] else |lead| == 1 && line(lead[0]) == Some(system)
    requires forall i | 0 <= i < |items| :: line(items[i]).None?
    ensures Lines(FilterMap(line, lead + items)) == system
  {
    FilterMapConcat(line, lead, items);
    FilterMapNone(line, items);
    LeadLine(line, lead, system);
    assert FilterMap(line, lead) + [] == FilterMap(line, lead);
  }

  lemma LeadLine(line: Json -> Option<string>, lead: seq<Json>, system: string)
    requires if system == "" then lead == [] else |lead| == 1 && line(lead[0]) == Some(system)
    ensures Lines(FilterMap(line, lead)) == system
  {
    if system != "" {
      FilterMapAll(line, lead, [system]);
      LinesOne(system);
    }
  }

  /** Tools that read back one by one read back as a list. */
  lemma ToolsAgain(of: Json -> Option<ToolDef>, json: ToolDef -> Json, again: ToolDef -> ToolDef, tools: seq<ToolDef>)
    requires forall t | CleanTool(t) :: of(json(t)) == Some(again(t))
    requires forall i | 0 <= i < |tools| :: CleanTool(tools[i])
    ensures FilterMap(of, Map(json, tools)) == Map(again, tools)
  {
    FilterMapAll(of, Map(json, tools), Map(again, tools));
  }

  lemma JoinedAll(messages: seq<Message>)
    requires forall i | 0 <= i < |messages| :: PlainMessage(messages[i])
    ensures forall i | 0 <= i < |messages| ::
              PlainMessage(Map(Joined, messages)[i]) && Turn(Map(Joined, messages)[i]) == Turn(messages[i])
  {
    forall i | 0 <= i < |messages|
      ensures PlainMessage(Map(Joined, messages)[i]) && Turn(Map(Joined, messages)[i]) == Turn(messages[i])
    {
      JoinedSaysTheSame(messages[i]);
    }
  }

  lemma AgainAll(c: Codec, tools: seq<ToolDef>, again: ToolDef -> ToolDef)
    requires forall t | CleanTool(t) :: CleanTool(again(t)) && ToolSaid(c, again(t)) == ToolSaid(c, t)
    requires forall i | 0 <= i < |tools| :: CleanTool(tools[i])
    ensures forall i | 0 <= i < |tools| ::
              CleanTool(Map(again, tools)[i]) && ToolSaid(c, Map(again, tools)[i]) == ToolSaid(c, tools[i])
  {
  }

  /** The parts of a request that a format reads back, put together. */
  lemma SaidAgain(c: Codec, r: ChatRequest, messages: seq<Message>, tools: seq<ToolDef>, back: ChatRequest)
    requires !back.unsupported && back.system == r.system && '\0' !in r.system
    requires back.messages == messages && |messages| == |r.messages|
    requires forall i | 0 <= i < |messages| :: PlainMessage(messages[i]) && Turn(messages[i]) == Turn(r.messages[i])
    requires back.tools == tools && |tools| == |r.tools|
    requires forall i | 0 <= i < |tools| :: CleanTool(tools[i]) && ToolSaid(c, tools[i]) == ToolSaid(c, r.tools[i])
    requires back.maxTokens == Limit(r.maxTokens) && back.temperature == r.temperature && back.topP == r.topP
    ensures Plain(back) && SaidBy(c, back) == SaidBy(c, r)
  {
    assert Map(Turn, messages) == Map(Turn, r.messages);
  }

  // ---- What parsers never yield ----

  lemma {:induction false} LastResultClean(content: seq<ContentBlock>)
    requires forall i | 0 <= i < |content| :: CleanBlock(content[i])
    ensures Clean(LastResult(content))
  {
    if content != [] {
      LastResultClean(content[..|content| - 1]);
    }
  }

  lemma BlockClean(c: Codec, part: Json)
    ensures Block(c, part).Some? ==> CleanBlock(Block(c, part).value)
  {
  }

  lemma ContentClean(c: Codec, j: Json)
    ensures forall i | 0 <= i < |Content(c, j)| :: CleanBlock(Content(c, j)[i])
    ensures Clean(LastResult(Content(c, j)))
  {
    if j.Arr? {
      forall i | 0 <= i < |j.items| ensures Block(c, j.items[i]).Some? ==> CleanBlock(Block(c, j.items[i]).value) {
        BlockClean(c, j.items[i]);
      }
      FilterMapForall(part => Block(c, part), j.items, CleanBlock);
    }
    LastResultClean(Content(c, j));
  }

  lemma ParsedLinesClean(line: Json -> Option<string>, items: seq<Json>)
    requires forall i | 0 <= i < |items| :: line(items[i]).Some? ==> Clean(line(items[i]).value)
    ensures Clean(Lines(FilterMap(line, items)))
  {
    FilterMapForall(line, items, Clean);
    LinesClean(FilterMap(line, items));
  }
}
