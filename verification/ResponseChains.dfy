/** What any chain of response conversions keeps: meaning and usage. */
module ResponseChains {
  import opened Seqs
  import opened Json
  import opened StreamFormats
  import opened Responses
  import opened ResponseTheorems
  import opened Chains

  // ---- Usage ----

  predicate Counted(u: Usage) {
    0 <= u.input && 0 <= u.output && 0 <= u.cacheCreate && 0 <= u.cacheRead
  }

  lemma IntegerAt(usage: Json, keys: seq<string>, k: nat, n: int32)
    requires k < |keys| && 0 <= n && usage.At(keys[k]) == Int(n)
    requires forall i | 0 <= i < k :: usage.At(keys[i]).Null?
    ensures UsageInteger(usage, keys) == n
    decreases k
  {
    if k > 0 {
      IntegerAt(usage, keys[1..], k - 1, n);
    }
  }

  lemma IntegerNone(usage: Json, keys: seq<string>)
    requires forall i | 0 <= i < |keys| :: usage.At(keys[i]).Null?
    ensures UsageInteger(usage, keys) == 0
  {
    if keys != [] {
      IntegerNone(usage, keys[1..]);
    }
  }

  const INPUT_KEYS := ["input_tokens", "prompt_tokens", "promptTokenCount"]
  const OUTPUT_KEYS := ["output_tokens", "completion_tokens", "candidatesTokenCount"]
  const CACHE_KEYS := ["cache_read_input_tokens", "cachedContentTokenCount"]

  lemma InputBack(f: Format, u: Usage)
    requires Counted(u)
    ensures UsageInteger(Obj(UsageMembers(f, u)), INPUT_KEYS) == u.input
  {
    var k := match f case Gemini => 2 case OpenAIChatCompletions => 1 case _ => 0;
    IntegerAt(Obj(UsageMembers(f, u)), INPUT_KEYS, k, u.input);
  }

  lemma OutputBack(f: Format, u: Usage)
    requires Counted(u)
    ensures UsageInteger(Obj(UsageMembers(f, u)), OUTPUT_KEYS) == u.output
  {
    var k := match f case Gemini => 2 case OpenAIChatCompletions => 1 case _ => 0;
    IntegerAt(Obj(UsageMembers(f, u)), OUTPUT_KEYS, k, u.output);
  }

  /** Where the cache-read count is looked for: two keys, and two nested objects. */
  function CacheRead(usage: Json): int32 {
    Larger(Larger(UsageInteger(usage, CACHE_KEYS),
                  UsageInteger(usage.At("prompt_tokens_details"), ["cached_tokens"])),
           UsageInteger(usage.At("input_tokens_details"), ["cached_tokens"]))
  }

  lemma CacheKeys(f: Format, u: Usage)
    requires Counted(u)
    ensures UsageInteger(Obj(UsageMembers(f, u)), CACHE_KEYS) == if f == Anthropic || f == Gemini then u.cacheRead else 0
  {
    var usage := Obj(UsageMembers(f, u));
    if f == Anthropic && u.cacheRead > 0 {
      IntegerAt(usage, CACHE_KEYS, 0, u.cacheRead);
    } else if f == Gemini && u.cacheRead > 0 {
      IntegerAt(usage, CACHE_KEYS, 1, u.cacheRead);
    } else {
      IntegerNone(usage, CACHE_KEYS);
    }
  }

  lemma PromptDetails(f: Format, u: Usage)
    requires Counted(u)
    ensures UsageInteger(Obj(UsageMembers(f, u)).At("prompt_tokens_details"), ["cached_tokens"])
         == if f == OpenAIChatCompletions then u.cacheRead else 0
  {
    assert f != OpenAIChatCompletions ==> !Obj(UsageMembers(f, u)).Has("prompt_tokens_details");
  }

  lemma InputDetails(f: Format, u: Usage)
    requires Counted(u)
    ensures UsageInteger(Obj(UsageMembers(f, u)).At("input_tokens_details"), ["cached_tokens"])
         == if f == OpenAIResponses then u.cacheRead else 0
  {
    assert f != OpenAIResponses ==> !Obj(UsageMembers(f, u)).Has("input_tokens_details");
  }

  lemma CacheBack(f: Format, u: Usage)
    requires Counted(u)
    ensures CacheRead(Obj(UsageMembers(f, u))) == u.cacheRead
  {
    CacheKeys(f, u);
    PromptDetails(f, u);
    InputDetails(f, u);
  }

  lemma CountsBack(f: Format, u: Usage)
    requires Counted(u)
    ensures var v := CountsOf(Obj(UsageMembers(f, u)));
            v.input == u.input && v.output == u.output && v.cacheRead == u.cacheRead
  {
    InputBack(f, u);
    OutputBack(f, u);
    CacheBack(f, u);
  }

  lemma UsageFound(c: Codec, f: Format, r: Reply)
    ensures UsageObject(Write(c, f, r))
         == match r.usage case None => None case Some(u) => Some(Obj(UsageMembers(f, u)))
  {
    match f
    case OpenAIChatCompletions => assert "usage" !in OpenAiReply(r) && "usageMetadata" !in OpenAiReply(r);
    case Anthropic => assert "usage" !in AnthropicReply(c, r) && "usageMetadata" !in AnthropicReply(c, r);
    case OpenAIResponses => assert "usage" !in ResponsesReply(r) && "usageMetadata" !in ResponsesReply(r);
    case Gemini => assert "usage" !in GeminiReply(c, r) && "usageMetadata" !in GeminiReply(c, r);
  }

  function Counts(u: Option<Usage>): Option<(int32, int32, int32)> {
    match u
    case None => None
    case Some(v) => Some((v.input, v.output, v.cacheRead))
  }

  lemma UsageReadsBack(c: Codec, f: Format, r: Reply)
    requires r.usage.Some? ==> Counted(r.usage.value)
    ensures Counts(ReadUsage(Write(c, f, r))) == Counts(r.usage)
  {
    UsageFound(c, f, r);
    if r.usage.Some? {
      CountsBack(f, r.usage.value);
    }
  }

  /** The key under which a format totals its tokens; Anthropic has none. */
  function TotalKey(f: Format): Option<string> {
    match f
    case OpenAIChatCompletions => Some("total_tokens")
    case OpenAIResponses => Some("total_tokens")
    case Gemini => Some("totalTokenCount")
    case Anthropic => None
  }

  lemma TotalsAddUp(c: Codec, f: Format, r: Reply)
    requires r.usage.Some? && Counted(r.usage.value) && TotalKey(f).Some?
    ensures var u, out := r.usage.value, Write(c, f, r);
            && UsageObject(out).Some?
            && (UsageObject(out).value.At(TotalKey(f).value) == Int(u.input + u.output)
                <==> u.input + u.output <= INT_MAX)
  {
    UsageFound(c, f, r);
    assert UsageMembers(f, r.usage.value)[TotalKey(f).value] == Int(Total(r.usage.value));
  }

  // ---- One conversion ----

  /**
   * What a response says: its text, the names and argument objects of its calls in order, whether
   * it stopped on length without calling, and its input, output and cache-read counts.
   */
  datatype Meaning = Meaning(text: string, calls: seq<(string, Json)>, cutShort: bool,
                             counts: Option<(int32, int32, int32)>)

  function CallMeanings(c: Codec, calls: seq<ToolCall>): seq<(string, Json)> {
    Map((tc: ToolCall) => (tc.name, ParseObject(c, tc.arguments)), calls)
  }

  function MeaningOf(c: Codec, f: Format, root: Json): Meaning {
    Told(c, ResponseText(root), ExtractCalls(c, f, root), ParseFinish(f, root), ReadUsage(root))
  }

  function Told(c: Codec, text: string, calls: seq<ToolCall>, finish: FinishReason, usage: Option<Usage>): Meaning {
    Meaning(text, CallMeanings(c, calls), calls == [] && finish == Length, Counts(usage))
  }

  function Ids(calls: seq<ToolCall>): seq<string> {
    Map((tc: ToolCall) => tc.id, calls)
  }

  function IdsOf(c: Codec, f: Format, root: Json): seq<string> {
    Ids(ExtractCalls(c, f, root))
  }

  lemma StoredCalls(c: Codec, f: Format, calls: seq<ToolCall>)
    requires Lawful(c)
    ensures CallMeanings(c, Stored(c, f, calls)) == CallMeanings(c, calls)
    ensures f != Gemini ==> Ids(Stored(c, f, calls)) == Ids(calls)
  {
    forall i | 0 <= i < |calls|
      ensures ParseObject(c, Objectified(c, calls[i].arguments)) == ParseObject(c, calls[i].arguments)
    {
      assert ParseObject(c, calls[i].arguments).Obj?;
    }
  }

  /** The two parts of a reply that reading it back does not return as they were. */
  lemma RereadTells(c: Codec, g: Format, text: string, calls: seq<ToolCall>, finish: FinishReason,
                    u: Option<Usage>, v: Option<Usage>)
    requires Lawful(c) && Counts(v) == Counts(u)
    ensures Told(c, text, Stored(c, g, calls), Reread(g, finish, calls != []), v) == Told(c, text, calls, finish, u)
  {
    StoredCalls(c, g, calls);
  }

  lemma ReadIsClean(c: Codec, f: Format, g: Format, root: Json, model: string)
    requires Lawful(c)
    ensures CleanReply(Read(c, f, g, root, model))
  {
    TextClean(root);
    CallsClean(c, f, root);
  }

  lemma WrittenTells(c: Codec, g: Format, r: Reply)
    requires Lawful(c) && CleanReply(r) && (r.usage.Some? ==> Counted(r.usage.value))
    requires r.calls != [] ==> r.finish == ToolCalls
    ensures MeaningOf(c, g, Write(c, g, r)) == Told(c, r.text, r.calls, r.finish, r.usage)
  {
    WrittenReadsBack(c, g, r);
    UsageReadsBack(c, g, r);
    RereadTells(c, g, r.text, r.calls, r.finish, r.usage, ReadUsage(Write(c, g, r)));
  }

  lemma WrittenKeepsMeaning(c: Codec, f: Format, root: Json, g: Format, model: string)
    requires Lawful(c)
    ensures var out := Write(c, g, Read(c, f, g, root, model));
            MeaningOf(c, g, out) == MeaningOf(c, f, root)
  {
    var r := Read(c, f, g, root, model);
    ReadIsClean(c, f, g, root, model);
    WrittenTells(c, g, r);
  }

  lemma WrittenIds(c: Codec, g: Format, r: Reply)
    requires Lawful(c) && CleanReply(r) && g != Gemini
    ensures IdsOf(c, g, Write(c, g, r)) == Ids(r.calls)
  {
    WrittenReadsBack(c, g, r);
    StoredCalls(c, g, r.calls);
  }

  lemma WrittenEnds(c: Codec, g: Format, r: Reply)
    requires CleanReply(r) && (r.calls != [] ==> r.finish == ToolCalls)
    ensures Convertible(g, Write(c, g, r))
    ensures ExtractCalls(c, g, Write(c, g, r)) != [] ==> ParseFinish(g, Write(c, g, r)) == ToolCalls
  {
    WrittenReadsBack(c, g, r);
  }

  lemma WrittenDoc(c: Codec, body: string, from: Format, to: Format, model: string)
    requires Lawful(c) && from != to && Convertible(from, Doc(c, body))
    ensures Convert(c, body, from, to, model).Some?
    ensures Doc(c, Convert(c, body, from, to, model).value) == Write(c, to, Read(c, from, to, Doc(c, body), model))
  {
    var out := Write(c, to, Read(c, from, to, Doc(c, body), model));
    assert c.parse(c.write(out)) == Some(out);
  }

  /** Every conversion between two formats keeps the meaning. */
  lemma ConversionKeepsMeaning(c: Codec, body: string, from: Format, to: Format, model: string)
    requires Lawful(c) && Convert(c, body, from, to, model).Some?
    ensures MeaningOf(c, to, Doc(c, Convert(c, body, from, to, model).value)) == MeaningOf(c, from, Doc(c, body))
  {
    if from != to {
      WrittenDoc(c, body, from, to, model);
      WrittenKeepsMeaning(c, from, Doc(c, body), to, model);
    }
  }

  /** It succeeds exactly on convertible responses, its output is convertible, and calls end it. */
  lemma ConversionSucceeds(c: Codec, body: string, from: Format, to: Format, model: string)
    requires Lawful(c) && from != to
    ensures var out := Convert(c, body, from, to, model);
            && (out.Some? <==> Convertible(from, Doc(c, body)))
            && (out.Some? ==>
                  && Convertible(to, Doc(c, out.value))
                  && (ExtractCalls(c, to, Doc(c, out.value)) != [] ==> ParseFinish(to, Doc(c, out.value)) == ToolCalls))
  {
    if Convertible(from, Doc(c, body)) {
      WrittenDoc(c, body, from, to, model);
      ReadIsClean(c, from, to, Doc(c, body), model);
      WrittenEnds(c, to, Read(c, from, to, Doc(c, body), model));
    }
  }

  lemma ConversionKeepsIds(c: Codec, body: string, from: Format, to: Format, model: string)
    requires Lawful(c) && to != Gemini && Convert(c, body, from, to, model).Some?
    ensures IdsOf(c, to, Doc(c, Convert(c, body, from, to, model).value)) == IdsOf(c, from, Doc(c, body))
  {
    if from != to {
      WrittenDoc(c, body, from, to, model);
      ReadIsClean(c, from, to, Doc(c, body), model);
      WrittenIds(c, to, Read(c, from, to, Doc(c, body), model));
    }
  }

  lemma ReadCounts(c: Codec, from: Format, to: Format, doc: Json, model: string)
    requires ReadUsage(doc).Some?
    ensures Read(c, from, to, doc, model).usage == ReadUsage(doc) && Counted(ReadUsage(doc).value)
  {
  }

  /** The counts of a source are never negative, and a written total is their sum exactly when it fits an int. */
  lemma ConversionTotals(c: Codec, body: string, from: Format, to: Format, model: string)
    requires Lawful(c) && from != to && Convert(c, body, from, to, model).Some?
    requires ReadUsage(Doc(c, body)).Some? && TotalKey(to).Some?
    ensures var u, out := ReadUsage(Doc(c, body)).value, Doc(c, Convert(c, body, from, to, model).value);
            && Counted(u) && UsageObject(out).Some?
            && (UsageObject(out).value.At(TotalKey(to).value) == Int(u.input + u.output)
                <==> u.input + u.output <= INT_MAX)
  {
    WrittenDoc(c, body, from, to, model);
    ReadCounts(c, from, to, Doc(c, body), model);
    TotalsAddUp(c, to, Read(c, from, to, Doc(c, body), model));
  }

  // ---- Any chain of conversions ----

  function Converting(c: Codec, model: string): Converter {
    (body, from, to) => Convert(c, body, from, to, model)
  }

  function MeaningIn(c: Codec): (Format, string) -> Meaning {
    (f, body) => MeaningOf(c, f, Doc(c, body))
  }

  function IdsIn(c: Codec): (Format, string) -> seq<string> {
    (f, body) => IdsOf(c, f, Doc(c, body))
  }

  function ConvertibleIn(c: Codec): (Format, string) -> bool {
    (f, body) => Convertible(f, Doc(c, body))
  }

  lemma ConvertingKeepsMeaning(c: Codec, model: string)
    requires Lawful(c)
    ensures Keeps(Converting(c, model), MeaningIn(c), f => true)
  {
    forall body, from, to | Convert(c, body, from, to, model).Some?
      ensures MeaningIn(c)(to, Convert(c, body, from, to, model).value) == MeaningIn(c)(from, body)
    {
      ConversionKeepsMeaning(c, body, from, to, model);
    }
  }

  lemma ConvertingKeepsIds(c: Codec, model: string)
    requires Lawful(c)
    ensures Keeps(Converting(c, model), IdsIn(c), f => f != Gemini)
  {
    forall body, from, to | to != Gemini && Convert(c, body, from, to, model).Some?
      ensures IdsIn(c)(to, Convert(c, body, from, to, model).value) == IdsIn(c)(from, body)
    {
      ConversionKeepsIds(c, body, from, to, model);
    }
  }

  lemma ConvertingStaysGood(c: Codec, model: string)
    requires Lawful(c)
    ensures StaysGood(Converting(c, model), ConvertibleIn(c))
  {
    forall body, from, to | ConvertibleIn(c)(from, body)
      ensures Convert(c, body, from, to, model).Some?
              && ConvertibleIn(c)(to, Convert(c, body, from, to, model).value)
    {
      if from != to {
        ConversionSucceeds(c, body, from, to, model);
      }
    }
  }

  /** A chain that succeeds keeps the meaning. */
  lemma ChainKeepsMeaning(c: Codec, body: string, from: Format, path: seq<Format>, model: string)
    requires Lawful(c) && Chain(Converting(c, model), body, from, path).Some?
    ensures MeaningIn(c)(Last(from, path), Chain(Converting(c, model), body, from, path).value)
         == MeaningIn(c)(from, body)
  {
    ConvertingKeepsMeaning(c, model);
    ChainKeeps(Converting(c, model), MeaningIn(c), f => true, body, from, path);
  }

  /** It keeps the ids of the calls too, unless it passes through Gemini. */
  lemma ChainKeepsIds(c: Codec, body: string, from: Format, path: seq<Format>, model: string)
    requires Lawful(c) && Chain(Converting(c, model), body, from, path).Some? && Gemini !in path
    ensures IdsIn(c)(Last(from, path), Chain(Converting(c, model), body, from, path).value) == IdsIn(c)(from, body)
  {
    ConvertingKeepsIds(c, model);
    ChainKeeps(Converting(c, model), IdsIn(c), f => f != Gemini, body, from, path);
  }

  /** A path that leaves its first format succeeds exactly when the source is convertible. */
  lemma ChainSucceeds(c: Codec, body: string, from: Format, path: seq<Format>, model: string)
    requires Lawful(c) && path != [] && path[0] != from
    ensures var out := Chain(Converting(c, model), body, from, path);
            && (out.Some? <==> ConvertibleIn(c)(from, body))
            && (out.Some? ==> ConvertibleIn(c)(Last(from, path), out.value))
  {
    ConvertingStaysGood(c, model);
    if ConvertibleIn(c)(from, body) {
      ChainStaysGood(Converting(c, model), ConvertibleIn(c), body, from, path);
    }
  }
}
