/**
 * Response conversion preserves meaning: for all pairs of formats, and for any chain of them, the
 * converted response is again convertible and reads back the same text, calls, finish and usage.
 */
module ResponseTheorems {
  import opened Seqs
  import opened Json
  import opened StreamFormats
  import opened Responses

  // ---- What reading never yields ----

  predicate CleanCall(tc: ToolCall) {
    Clean(tc.id) && Clean(tc.name) && Clean(tc.arguments)
  }

  predicate CleanCalls(calls: seq<ToolCall>) {
    forall i | 0 <= i < |calls| :: CleanCall(calls[i])
  }

  lemma JoinClean(blocks: seq<Json>)
    ensures Clean(JoinTexts(blocks))
  {
    FlattenClean(Map(BlockText, blocks));
  }

  lemma TextClean(root: Json)
    ensures Clean(ResponseText(root))
  {
    JoinClean(Items(root, "content"));
    JoinClean(Items(First(root, "candidates").At("content"), "parts"));
    forall item ensures Clean(ItemText(item)) {
      JoinClean(Items(item, "content"));
    }
    FlattenClean(Map(ItemText, Items(root, "output")));
  }

  lemma CallClean(c: Codec, f: Format, item: Json)
    requires Lawful(c)
    ensures CallOf(c, f, item).Some? ==> CleanCall(CallOf(c, f, item).value)
  {
  }

  lemma {:induction false} GatherClean(c: Codec, f: Format, items: seq<Json>, n: nat)
    requires Lawful(c) && n <= |items|
    ensures CleanCalls(Gather(c, f, items[..n]))
  {
    if n > 0 {
      GatherClean(c, f, items, n - 1);
      GatherSnoc(c, f, items, n - 1);
      CallClean(c, f, items[n - 1]);
    }
  }

  lemma CallsClean(c: Codec, f: Format, root: Json)
    requires Lawful(c)
    ensures CleanCalls(ExtractCalls(c, f, root))
  {
    var items := CallItems(f, root);
    GatherClean(c, f, items, |items|);
    assert items[..|items|] == items;
  }

  // ---- Texts and calls of a list with an optional leading block ----

  lemma {:induction false} SilentTexts(blocks: seq<Json>)
    requires forall i | 0 <= i < |blocks| :: !blocks[i].Has("text")
    ensures JoinTexts(blocks) == ""
  {
    if blocks != [] {
      var n := |blocks| - 1;
      SilentTexts(blocks[..n]);
      assert Map(BlockText, blocks)[..n] == Map(BlockText, blocks[..n]);
    }
  }

  /** A leading text block, then blocks without text. */
  lemma TextAmongCalls(lead: seq<Json>, calls: seq<Json>, text: string)
    requires Clean(text)
    requires if text == "" then lead == [] || (|lead| == 1 && lead[0].At("text") == Str("")) else
               |lead| == 1 && lead[0].At("text") == Str(text)
    requires forall i | 0 <= i < |calls| :: !calls[i].Has("text")
    ensures JoinTexts(lead + calls) == text
  {
    SilentTexts(calls);
    assert Map(BlockText, lead + calls) == Map(BlockText, lead) + Map(BlockText, calls);
    FlattenConcat(Map(BlockText, lead), Map(BlockText, calls));
    if lead != [] {
      assert Map(BlockText, lead) == [text];
      FlattenOne(text);
    }
  }

  /** Leading blocks that are no calls, then one block for each call. */
  lemma CallsAmong(of: Json -> Option<ToolCall>, lead: seq<Json>, blocks: seq<Json>, calls: seq<ToolCall>)
    requires forall j | j in lead :: of(j).None?
    requires |blocks| == |calls| && forall i | 0 <= i < |blocks| :: of(blocks[i]) == Some(calls[i])
    ensures FilterMap(of, lead + blocks) == calls
  {
    FilterMapConcat(of, lead, blocks);
    FilterMapNone(of, lead);
    FilterMapAll(of, blocks, calls);
  }

  // ---- Reading back what was written ----

  /** Arguments after a trip through a format that stores them as an object. */
  function Objectified(c: Codec, arguments: string): string {
    c.write(ParseObject(c, arguments))
  }

  /** Calls as a Gemini document carries them, without ids. */
  function Bare(c: Codec, calls: seq<ToolCall>): (r: seq<ToolCall>)
    ensures |r| == |calls|
  {
    Map((tc: ToolCall) => ToolCall("", tc.name, Objectified(c, tc.arguments)), calls)
  }

  /** The calls that reading finds in what was written for them. */
  function Stored(c: Codec, f: Format, calls: seq<ToolCall>): (r: seq<ToolCall>)
    ensures |r| == |calls|
  {
    match f
    case OpenAIChatCompletions => calls
    case OpenAIResponses => calls
    case Anthropic => Map((tc: ToolCall) => tc.(arguments := Objectified(c, tc.arguments)), calls)
    case Gemini => Numbered(Bare(c, calls))
  }

  /** The members that the readers of text, calls and finish reasons look at. */
  predicate Agree(a: Json, b: Json) {
    && a.At("choices") == b.At("choices")
    && a.At("output_text") == b.At("output_text")
    && a.At("content") == b.At("content")
    && a.At("output") == b.At("output")
    && a.At("candidates") == b.At("candidates")
    && a.At("stop_reason") == b.At("stop_reason")
    && a.At("status") == b.At("status")
  }

  /** They are not hidden by the usage that is added last. */
  lemma UsageAside(members: map<string, Json>, f: Format, u: Option<Usage>)
    ensures Agree(Obj(members + UsageField(f, u)), Obj(members))
  {
  }

  lemma OpenAiCallBack(tc: ToolCall)
    requires CleanCall(tc)
    ensures OpenAiCall(OpenAiCallJson(tc)) == Some(tc)
  {
  }

  lemma ResponsesCallBack(tc: ToolCall)
    requires CleanCall(tc)
    ensures ResponsesCall(ResponsesCallJson(tc)) == Some(tc)
    ensures !BadResponsesItem(ResponsesCallJson(tc)) && ResponsesCallJson(tc).At("type") == Str("function_call")
  {
  }

  lemma AnthropicCallBack(c: Codec, tc: ToolCall)
    requires CleanCall(tc)
    ensures AnthropicCall(c, AnthropicCallJson(c, tc)) == Some(tc.(arguments := Objectified(c, tc.arguments)))
    ensures !AnthropicCallJson(c, tc).Has("text") && !BadAnthropicBlock(AnthropicCallJson(c, tc))
  {
  }

  lemma GeminiCallBack(c: Codec, tc: ToolCall)
    requires CleanCall(tc)
    ensures GeminiCall(c, GeminiCallJson(c, tc)) == Some(ToolCall("", tc.name, Objectified(c, tc.arguments)))
    ensures !GeminiCallJson(c, tc).Has("text") && GeminiCallJson(c, tc).Has("functionCall")
  {
  }

  /** What a written finish reason is read back as. */
  function Reread(f: Format, reason: FinishReason, hasCalls: bool): FinishReason {
    if reason == Length then Length
    else
      match f
      case OpenAIChatCompletions =>
        if reason == ToolCalls then ToolCalls
        else if reason == Stop || reason == Unknown then Stop else ContentFilter
      case Anthropic => if reason == ToolCalls then ToolCalls else Stop
      case Gemini =>
        if reason == ContentFilter || reason == Safety then Safety
        else if reason == Recitation then Recitation
        else if hasCalls then ToolCalls else Stop
      case OpenAIResponses =>
        if reason == ContentFilter || reason == Safety || reason == Recitation then ContentFilter
        else if hasCalls then ToolCalls else Stop
  }

  ghost predicate ReadsBack(c: Codec, f: Format, r: Reply, out: Json) {
    && out.Obj?
    && !Unsupported(f, out)
    && ResponseText(out) == r.text
    && ExtractCalls(c, f, out) == Stored(c, f, r.calls)
    && ParseFinish(f, out) == Reread(f, r.finish, r.calls != [])
  }

  predicate CleanReply(r: Reply) {
    Clean(r.text) && CleanCalls(r.calls)
  }

  // ---- Chat completions ----

  function OpenAiMessage(r: Reply): Json {
    First(Obj(OpenAiReply(r)), "choices").At("message")
  }

  lemma OpenAiShape(r: Reply)
    ensures var doc, message := Obj(OpenAiReply(r)), OpenAiMessage(r);
            && Items(doc, "choices") == [First(doc, "choices")]
            && First(doc, "choices").At("finish_reason") == Str(SerializeFinish(r.finish, OpenAIChatCompletions))
            && !First(doc, "choices").Has("text")
            && !doc.Has("output_text") && !doc.Has("content") && !doc.Has("output") && !doc.Has("candidates")
  {
  }

  lemma OpenAiMessageShape(r: Reply)
    ensures var message := OpenAiMessage(r);
            && !message.Has("refusal")
            && message.At("content") == (if r.text == "" && r.calls != [] then Null else CText(r.text))
            && Items(message, "tool_calls") == Map(OpenAiCallJson, r.calls)
  {
  }

  lemma OpenAiText(r: Reply, out: Json)
    requires CleanReply(r) && Agree(out, Obj(OpenAiReply(r)))
    ensures ResponseText(out) == r.text && !BadOpenAi(out)
  {
    OpenAiShape(r);
    OpenAiMessageShape(r);
    assert First(out, "choices").At("message") == OpenAiMessage(r);
  }

  lemma OpenAiCalls(c: Codec, r: Reply, out: Json)
    requires CleanReply(r) && Agree(out, Obj(OpenAiReply(r)))
    ensures ExtractCalls(c, OpenAIChatCompletions, out) == r.calls
  {
    OpenAiMessageShape(r);
    assert First(out, "choices").At("message") == OpenAiMessage(r);
    forall i | 0 <= i < |r.calls| ensures OpenAiCall(OpenAiCallJson(r.calls[i])) == Some(r.calls[i]) {
      OpenAiCallBack(r.calls[i]);
    }
    FilterMapAll(item => CallOf(c, OpenAIChatCompletions, item), Map(OpenAiCallJson, r.calls), r.calls);
  }

  lemma OpenAiFinish(r: Reply, out: Json)
    requires Agree(out, Obj(OpenAiReply(r)))
    ensures ParseFinish(OpenAIChatCompletions, out) == Reread(OpenAIChatCompletions, r.finish, r.calls != [])
  {
    OpenAiShape(r);
  }

  // ---- Responses ----

  lemma ResponsesShape(r: Reply)
    ensures var doc := Obj(ResponsesReply(r));
            && doc.At("status") == Str(SerializeFinish(r.finish, OpenAIResponses))
            && !doc.Has("choices") && doc.At("output_text") == CText(r.text)
  {
  }

  lemma ResponsesItems(r: Reply) returns (lead: seq<Json>)
    ensures Items(Obj(ResponsesReply(r)), "output") == lead + Map(ResponsesCallJson, r.calls)
    ensures forall j | j in lead :: j.At("type") == Str("message") && !BadResponsesItem(j)
  {
    var text := Obj(map["type" := Str("output_text"), "text" := CText(r.text)]);
    var item := Obj(map["type" := Str("message"), "role" := Str("assistant"), "content" := Arr([text])]);
    lead := TextBlock(r, item);
    assert Items(item, "content") == [text];
  }

  lemma ResponsesCallItems(r: Reply)
    requires CleanReply(r)
    ensures forall i | 0 <= i < |r.calls| ::
              var item := Map(ResponsesCallJson, r.calls)[i];
              && ResponsesCall(item) == Some(r.calls[i])
              && !BadResponsesItem(item)
              && item.At("type") == Str("function_call")
  {
    forall i | 0 <= i < |r.calls|
      ensures var item := Map(ResponsesCallJson, r.calls)[i];
              ResponsesCall(item) == Some(r.calls[i]) && !BadResponsesItem(item)
              && item.At("type") == Str("function_call")
    {
      ResponsesCallBack(r.calls[i]);
    }
  }

  lemma ResponsesCalls(c: Codec, r: Reply, out: Json)
    requires CleanReply(r) && Agree(out, Obj(ResponsesReply(r)))
    ensures ExtractCalls(c, OpenAIResponses, out) == r.calls
  {
    var lead := ResponsesItems(r);
    ResponsesCallItems(r);
    CallsAmong(item => CallOf(c, OpenAIResponses, item), lead, Map(ResponsesCallJson, r.calls), r.calls);
  }

  lemma ResponsesText(r: Reply, out: Json)
    requires CleanReply(r) && Agree(out, Obj(ResponsesReply(r)))
    ensures ResponseText(out) == r.text
  {
    ResponsesShape(r);
  }

  lemma ResponsesSupported(r: Reply, out: Json)
    requires CleanReply(r) && Agree(out, Obj(ResponsesReply(r)))
    ensures !Unsupported(OpenAIResponses, out)
  {
    var lead := ResponsesItems(r);
    ResponsesCallItems(r);
    assert Items(out, "output") == lead + Map(ResponsesCallJson, r.calls);
  }

  lemma ResponsesFinish(r: Reply, out: Json)
    requires CleanReply(r) && Agree(out, Obj(ResponsesReply(r)))
    ensures ParseFinish(OpenAIResponses, out) == Reread(OpenAIResponses, r.finish, r.calls != [])
  {
    var lead := ResponsesItems(r);
    ResponsesCallItems(r);
    ResponsesShape(r);
    var items := Items(out, "output");
    assert items == lead + Map(ResponsesCallJson, r.calls);
    if r.calls != [] {
      assert items[|lead|].At("type") == Str("function_call");
    }
  }

  // ---- Anthropic ----

  lemma AnthropicShape(c: Codec, r: Reply) returns (lead: seq<Json>)
    requires CleanReply(r)
    ensures var doc := Obj(AnthropicReply(c, r));
            && doc.At("stop_reason") == Str(SerializeFinish(r.finish, Anthropic))
            && !doc.Has("choices") && !doc.Has("output_text") && !doc.Has("output") && !doc.Has("candidates")
            && Items(doc, "content") == lead + Map(tc => AnthropicCallJson(c, tc), r.calls)
    ensures if r.text == "" && r.calls != [] then lead == []
            else |lead| == 1 && lead[0].At("text") == Str(r.text) && lead[0].At("type") == Str("text")
  {
    lead := TextBlock(r, Obj(map["type" := Str("text"), "text" := CText(r.text)]));
  }

  lemma AnthropicBlocks(c: Codec, r: Reply)
    requires CleanReply(r)
    ensures forall i | 0 <= i < |r.calls| ::
              var block := Map(tc => AnthropicCallJson(c, tc), r.calls)[i];
              && AnthropicCall(c, block) == Some(Stored(c, Anthropic, r.calls)[i])
              && !block.Has("text") && !BadAnthropicBlock(block)
  {
    var blocks := Map(tc => AnthropicCallJson(c, tc), r.calls);
    forall i | 0 <= i < |r.calls|
      ensures AnthropicCall(c, blocks[i]) == Some(Stored(c, Anthropic, r.calls)[i])
              && !blocks[i].Has("text") && !BadAnthropicBlock(blocks[i])
    {
      AnthropicCallBack(c, r.calls[i]);
    }
  }

  lemma AnthropicCalls(c: Codec, r: Reply, out: Json)
    requires CleanReply(r) && Agree(out, Obj(AnthropicReply(c, r)))
    ensures ExtractCalls(c, Anthropic, out) == Stored(c, Anthropic, r.calls)
  {
    var lead := AnthropicShape(c, r);
    AnthropicBlocks(c, r);
    CallsAmong(item => CallOf(c, Anthropic, item), lead, Map(tc => AnthropicCallJson(c, tc), r.calls),
               Stored(c, Anthropic, r.calls));
  }

  lemma ContentText(root: Json, text: string)
    requires root.At("choices").Null? && root.At("output_text").Null?
    requires root.At("output").Null? && root.At("candidates").Null?
    requires JoinTexts(Items(root, "content")) == text
    ensures ResponseText(root) == text
  {
  }

  lemma AnthropicText(c: Codec, r: Reply, out: Json)
    requires CleanReply(r) && Agree(out, Obj(AnthropicReply(c, r)))
    ensures ResponseText(out) == r.text
  {
    var lead := AnthropicShape(c, r);
    AnthropicBlocks(c, r);
    TextAmongCalls(lead, Map(tc => AnthropicCallJson(c, tc), r.calls), r.text);
    ContentText(out, r.text);
  }

  lemma AnthropicSupported(c: Codec, r: Reply, out: Json)
    requires CleanReply(r) && Agree(out, Obj(AnthropicReply(c, r)))
    ensures !Unsupported(Anthropic, out)
  {
    var lead := AnthropicShape(c, r);
    AnthropicBlocks(c, r);
    var items := Items(out, "content");
    assert items == lead + Map(tc => AnthropicCallJson(c, tc), r.calls);
    forall i | 0 <= i < |items| ensures !BadAnthropicBlock(items[i]) {
    }
  }

  lemma AnthropicFinish(c: Codec, r: Reply, out: Json)
    requires CleanReply(r) && Agree(out, Obj(AnthropicReply(c, r)))
    ensures ParseFinish(Anthropic, out) == Reread(Anthropic, r.finish, r.calls != [])
  {
    var _ := AnthropicShape(c, r);
  }

  // ---- Gemini ----

  function GeminiCandidate(c: Codec, r: Reply): Json {
    First(Obj(GeminiReply(c, r)), "candidates")
  }

  lemma GeminiShape(c: Codec, r: Reply)
    ensures var doc := Obj(GeminiReply(c, r));
            && !doc.Has("choices") && !doc.Has("output_text") && !doc.Has("output") && !doc.Has("content")
            && Items(doc, "candidates") == [GeminiCandidate(c, r)]
            && GeminiCandidate(c, r).At("finishReason") == Str(SerializeFinish(r.finish, Gemini))
  {
  }

  lemma GeminiParts(c: Codec, r: Reply) returns (lead: seq<Json>)
    requires CleanReply(r)
    ensures Items(GeminiCandidate(c, r).At("content"), "parts") == lead + Map(tc => GeminiCallJson(c, tc), r.calls)
    ensures if r.text == "" && r.calls != [] then lead == []
            else |lead| == 1 && lead[0].At("text") == Str(r.text) && !lead[0].Has("functionCall")
  {
    lead := TextBlock(r, Obj(map["text" := CText(r.text)]));
  }

  lemma GeminiBlocks(c: Codec, r: Reply)
    requires CleanReply(r)
    ensures forall i | 0 <= i < |r.calls| ::
              var block := Map(tc => GeminiCallJson(c, tc), r.calls)[i];
              && GeminiCall(c, block) == Some(Bare(c, r.calls)[i])
              && !block.Has("text") && block.Has("functionCall")
  {
    var blocks := Map(tc => GeminiCallJson(c, tc), r.calls);
    forall i | 0 <= i < |r.calls|
      ensures GeminiCall(c, blocks[i]) == Some(Bare(c, r.calls)[i])
              && !blocks[i].Has("text") && blocks[i].Has("functionCall")
    {
      GeminiCallBack(c, r.calls[i]);
    }
  }

  lemma GeminiCalls(c: Codec, r: Reply, out: Json)
    requires CleanReply(r) && Agree(out, Obj(GeminiReply(c, r)))
    ensures ExtractCalls(c, Gemini, out) == Stored(c, Gemini, r.calls)
  {
    var lead := GeminiParts(c, r);
    GeminiBlocks(c, r);
    CallsAmong(item => CallOf(c, Gemini, item), lead, Map(tc => GeminiCallJson(c, tc), r.calls), Bare(c, r.calls));
  }

  lemma GeminiText(c: Codec, r: Reply, out: Json)
    requires CleanReply(r) && Agree(out, Obj(GeminiReply(c, r)))
    ensures ResponseText(out) == r.text
  {
    var lead := GeminiParts(c, r);
    GeminiBlocks(c, r);
    GeminiShape(c, r);
    TextAmongCalls(lead, Map(tc => GeminiCallJson(c, tc), r.calls), r.text);
  }

  lemma GeminiFinish(c: Codec, r: Reply, out: Json)
    requires CleanReply(r) && Agree(out, Obj(GeminiReply(c, r)))
    ensures ParseFinish(Gemini, out) == Reread(Gemini, r.finish, r.calls != [])
    ensures !Unsupported(Gemini, out)
  {
    var lead := GeminiParts(c, r);
    GeminiBlocks(c, r);
    GeminiShape(c, r);
    var parts := Items(First(out, "candidates").At("content"), "parts");
    assert parts == lead + Map(tc => GeminiCallJson(c, tc), r.calls);
    if r.calls != [] {
      assert parts[|lead|].Has("functionCall");
    }
    assert !BadCandidate(First(out, "candidates"));
  }

  /** Reading a written response gives back its text, its stored calls and its reread finish. */
  lemma WrittenReadsBack(c: Codec, f: Format, r: Reply)
    requires CleanReply(r)
    ensures ReadsBack(c, f, r, Write(c, f, r))
  {
    var out := Write(c, f, r);
    match f
    case OpenAIChatCompletions =>
      UsageAside(OpenAiReply(r), f, r.usage);
      OpenAiText(r, out);
      OpenAiCalls(c, r, out);
      OpenAiFinish(r, out);
    case Anthropic =>
      UsageAside(AnthropicReply(c, r), f, r.usage);
      AnthropicText(c, r, out);
      AnthropicSupported(c, r, out);
      AnthropicCalls(c, r, out);
      AnthropicFinish(c, r, out);
    case OpenAIResponses =>
      UsageAside(ResponsesReply(r), f, r.usage);
      ResponsesCalls(c, r, out);
      ResponsesText(r, out);
      ResponsesSupported(r, out);
      ResponsesFinish(r, out);
    case Gemini =>
      UsageAside(GeminiReply(c, r), f, r.usage);
      GeminiText(c, r, out);
      GeminiCalls(c, r, out);
      GeminiFinish(c, r, out);
  }
}
