/** Request conversion between the four formats, and what any chain of conversions keeps. */
module RequestConversion {
  import opened Seqs
  import opened Json
  import opened StreamFormats
  import opened Responses
  import opened ChatIr
  import opened Chains
  import OpenAiRequests
  import AnthropicRequests
  import ResponsesRequests
  import GeminiRequests

  function ParseDoc(c: Codec, f: Format, doc: Json): ChatRequest {
    match f
    case Anthropic => AnthropicRequests.Parse(c, doc)
    case OpenAIChatCompletions => OpenAiRequests.Parse(c, doc)
    case OpenAIResponses => ResponsesRequests.Parse(c, doc)
    case Gemini => GeminiRequests.Parse(c, doc)
  }

  /** `parse_request`: a body that is no JSON object is an empty request. */
  function ParseIn(c: Codec, f: Format, body: string): ChatRequest {
    ParseDoc(c, f, Doc(c, body))
  }

  function SerializeIn(c: Codec, f: Format, r: ChatRequest): Json {
    match f
    case Anthropic => AnthropicRequests.Serialize(c, r)
    case OpenAIChatCompletions => OpenAiRequests.Serialize(c, r)
    case OpenAIResponses => ResponsesRequests.Serialize(c, r)
    case Gemini => GeminiRequests.Serialize(c, r)
  }

  function Mapped(r: ChatRequest, model: string): ChatRequest {
    if model != "" then r.(model := model) else r
  }

  /** `convert_request`; None stands for the refusal of unsupported content. */
  function ConvertRequest(c: Codec, body: string, from: Format, to: Format, model: string): Option<string> {
    if from == to && model == "" then Some(body)
    else
      var ir := ParseIn(c, from, body);
      if ir.unsupported then None else Some(c.write(SerializeIn(c, to, Mapped(ir, model))))
  }

  lemma EmptyBody(c: Codec, f: Format, body: string)
    requires !Doc(c, body).Obj?
    ensures ParseIn(c, f, body) == EmptyRequest()
  {
    LinesOne("");
    assert [""] + FilterMap(ResponsesRequests.SystemText, []) == [""];
  }

  // ---- One conversion ----

  lemma RoundTrip(c: Codec, f: Format, r: ChatRequest)
    requires Lawful(c) && Plain(r)
    ensures var back := ParseDoc(c, f, SerializeIn(c, f, r));
            Plain(back) && SaidBy(c, back) == SaidBy(c, r)
  {
    match f
    case Anthropic => AnthropicRequests.RoundTrip(c, r);
    case OpenAIChatCompletions => OpenAiRequests.RoundTrip(c, r);
    case OpenAIResponses => ResponsesRequests.RoundTrip(c, r);
    case Gemini => GeminiRequests.RoundTrip(c, r);
  }

  /** The rest of a request. */
  predicate Rest(back: ChatRequest, stop: seq<string>, stream: bool, userId: string, model: string) {
    back.stop == stop && back.stream == stream && back.userId == userId && back.model == model
  }

  lemma AnthropicRest(c: Codec, r: ChatRequest)
    requires Plain(r)
    ensures Rest(AnthropicRequests.Parse(c, AnthropicRequests.Serialize(c, r)),
                 Map(CStr, r.stop), r.stream, CStr(r.userId), CStr(r.model))
  {
    AnthropicRequests.PartsBack(c, r);
    AnthropicRequests.SettingsBack(c, r);
    StringsBack(r.stop);
  }

  lemma OpenAiRest(c: Codec, r: ChatRequest)
    requires Plain(r)
    ensures Rest(OpenAiRequests.Parse(c, OpenAiRequests.Serialize(c, r)),
                 Map(CStr, r.stop), r.stream, CStr(r.userId), CStr(r.model))
  {
    OpenAiRequests.PartsBack(c, r);
    OpenAiRequests.SettingsBack(c, r);
    StringsBack(r.stop);
  }

  /** What each format does to the rest of a request. */
  lemma RestReadsBack(c: Codec, f: Format, r: ChatRequest)
    requires Plain(r)
    ensures Rest(ParseDoc(c, f, SerializeIn(c, f, r)),
                 if f == OpenAIResponses then [] else Map(CStr, r.stop),
                 r.stream && f != Gemini,
                 if f == Gemini then "" else CStr(r.userId),
                 if f == Gemini then "" else CStr(r.model))
  {
    match f
    case Anthropic => AnthropicRest(c, r);
    case OpenAIChatCompletions => OpenAiRest(c, r);
    case OpenAIResponses =>
      ResponsesRequests.PartsBack(c, r);
      ResponsesRequests.RestBack(c, r);
    case Gemini =>
      GeminiRequests.SettingsBack(c, r);
      GeminiRequests.NoModel(c, r);
  }

  lemma ParsedIsClean(c: Codec, f: Format, body: string)
    requires Lawful(c)
    ensures CleanRequest(ParseIn(c, f, body))
  {
    match f
    case Anthropic => AnthropicRequests.ParsedClean(c, Doc(c, body));
    case OpenAIChatCompletions => OpenAiRequests.ParsedClean(c, Doc(c, body));
    case OpenAIResponses => ResponsesRequests.ParsedClean(c, Doc(c, body));
    case Gemini => GeminiRequests.ParsedClean(c, Doc(c, body));
  }

  /** The parsers produce no NUL, so an ordinary request is all that the round trip asks for. */
  lemma OrdinaryIsPlain(c: Codec, f: Format, body: string)
    requires Lawful(c)
    ensures Plain(ParseIn(c, f, body)) <==> Ordinary(ParseIn(c, f, body))
  {
    ParsedIsClean(c, f, body);
    PlainExactly(ParseIn(c, f, body));
  }

  lemma MappedSays(c: Codec, r: ChatRequest, model: string)
    requires Plain(r)
    ensures Plain(Mapped(r, model)) && SaidBy(c, Mapped(r, model)) == SaidBy(c, r)
  {
  }

  lemma WrittenBack(c: Codec, f: Format, r: ChatRequest)
    requires Lawful(c)
    ensures ParseIn(c, f, c.write(SerializeIn(c, f, r))) == ParseDoc(c, f, SerializeIn(c, f, r))
  {
    assert c.parse(c.write(SerializeIn(c, f, r))) == Some(SerializeIn(c, f, r));
  }

  lemma OrdinarySurvives(c: Codec, body: string, from: Format, to: Format, model: string)
    requires Lawful(c) && Ordinary(ParseIn(c, from, body))
    ensures var out := ConvertRequest(c, body, from, to, model);
            && out.Some?
            && Ordinary(ParseIn(c, to, out.value))
            && SaidBy(c, ParseIn(c, to, out.value)) == SaidBy(c, ParseIn(c, from, body))
  {
    if !(from == to && model == "") {
      var ir := ParseIn(c, from, body);
      OrdinaryIsPlain(c, from, body);
      MappedSays(c, ir, model);
      RoundTrip(c, to, Mapped(ir, model));
      WrittenBack(c, to, Mapped(ir, model));
      OrdinaryIsPlain(c, to, c.write(SerializeIn(c, to, Mapped(ir, model))));
    }
  }

  // ---- Any chain of conversions ----

  function Requesting(c: Codec, model: string): Converter {
    (body, from, to) => ConvertRequest(c, body, from, to, model)
  }

  /** An ordinary request that says this. */
  function Saying(c: Codec, said: Said): (Format, string) -> bool {
    (f, body) => Ordinary(ParseIn(c, f, body)) && SaidBy(c, ParseIn(c, f, body)) == said
  }

  lemma RequestingKeeps(c: Codec, model: string, said: Said)
    requires Lawful(c)
    ensures StaysGood(Requesting(c, model), Saying(c, said))
  {
    forall body, from, to | Saying(c, said)(from, body)
      ensures ConvertRequest(c, body, from, to, model).Some?
              && Saying(c, said)(to, ConvertRequest(c, body, from, to, model).value)
    {
      OrdinarySurvives(c, body, from, to, model);
    }
  }

  /** A chain from an ordinary request succeeds, ends in an ordinary request, and says the same. */
  lemma ChainKeepsRequest(c: Codec, body: string, from: Format, path: seq<Format>, model: string)
    requires Lawful(c) && Ordinary(ParseIn(c, from, body))
    ensures var out := Chain(Requesting(c, model), body, from, path);
            out.Some? && Saying(c, SaidBy(c, ParseIn(c, from, body)))(Last(from, path), out.value)
  {
    var said := SaidBy(c, ParseIn(c, from, body));
    RequestingKeeps(c, model, said);
    ChainStaysGood(Requesting(c, model), Saying(c, said), body, from, path);
  }
}
