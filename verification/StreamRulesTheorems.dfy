/** What the per-event rules of the streaming pipe guarantee, for every route. */
module StreamRulesTheorems {
  import opened Seqs
  import opened Json
  import opened Sse
  import opened StreamFormats
  import opened StreamRules

  // ---- The policy error is one SSE event ----

  lemma EscapeOneLine(ch: char)
    ensures OneLine(EscapeChar(ch))
  {
  }

  lemma {:induction false} QuoteOneLine(s: string)
    ensures OneLine(Flatten(Map(EscapeChar, s)))
  {
    if s != "" {
      var n := |s| - 1;
      assert Map(EscapeChar, s)[..n] == Map(EscapeChar, s[..n]);
      QuoteOneLine(s[..n]);
      EscapeOneLine(s[n]);
    }
  }

  /** One JSON string character, or escape, at the front of `s`; section 7 of RFC 8259. */
  function Unescape(s: string): Option<(char, string)> {
    if s == "" || s[0] == '"' || s[0] < ' ' then None
    else if s[0] != '\\' then Some((s[0], s[1..]))
    else if |s| < 2 then None
    else match s[1]
         case '"' => Some(('"', s[2..]))
         case '\\' => Some(('\\', s[2..]))
         case 'b' => Some(('\U{0008}', s[2..]))
         case 'f' => Some(('\U{000C}', s[2..]))
         case 'n' => Some(('\n', s[2..]))
         case 'r' => Some(('\r', s[2..]))
         case 't' => Some(('\t', s[2..]))
         case 'u' => if |s| < 6 then None
                     else Some(((HexValue(s[4]) * 16 + HexValue(s[5])) as char, s[6..]))
         case _ => None
  }

  function HexValue(ch: char): (n: nat)
    ensures n < 16
  {
    if '0' <= ch <= '9' then ch as int - '0' as int
    else if 'a' <= ch <= 'f' then ch as int - 'a' as int + 10 else 0
  }

  /** Read characters one by one until none can be read. */
  function ReadAll(read: string -> Option<(char, string)>, s: string): string
    decreases |s|
  {
    match read(s)
    case Some((ch, rest)) => if |rest| < |s| then [ch] + ReadAll(read, rest) else ""
    case None => ""
  }

  lemma HexDigit(n: nat)
    requires n < 16
    ensures HexValue(HEX[n]) == n
  {
  }

  lemma UnescapeChar(ch: char, rest: string)
    ensures Unescape(EscapeChar(ch) + rest) == Some((ch, rest))
  {
    var e := EscapeChar(ch);
    assert (e + rest)[|e|..] == rest;
    if ch < ' ' {
      HexDigit(ch as int / 16);
      HexDigit(ch as int % 16);
      assert (ch as int / 16) * 16 + ch as int % 16 == ch as int;
    }
  }

  lemma {:induction false} WrittenReadsBack(write: char -> string, read: string -> Option<(char, string)>, s: string)
    requires forall ch :: write(ch) != ""
    requires forall ch, rest :: read(write(ch) + rest) == Some((ch, rest))
    requires read("").None?
    ensures ReadAll(read, Flatten(Map(write, s))) == s
  {
    if s != "" {
      assert Map(write, s) == [write(s[0])] + Map(write, s[1..]);
      FlattenConcat([write(s[0])], Map(write, s[1..]));
      FlattenOne(write(s[0]));
      WrittenReadsBack(write, read, s[1..]);
    }
  }

  /** Quoting is undone by reading the string body: nothing is lost or confused. */
  lemma QuoteReadsBack(s: string)
    ensures ReadAll(Unescape, Flatten(Map(EscapeChar, s))) == s
  {
    forall ch, rest ensures Unescape(EscapeChar(ch) + rest) == Some((ch, rest)) {
      UnescapeChar(ch, rest);
    }
    WrittenReadsBack(EscapeChar, Unescape, s);
  }

  lemma ErrorLine(head: string, open: string, code: string, message: string, close: string)
    requires head == "" || (OneLine(head[..|head| - 1]) && head[|head| - 1] == '\n' && |head| > 1)
    requires OneLine(open) && OneLine(code) && OneLine(message) && OneLine(close) && open != ""
    ensures OneEvent(head + open + code + ",\"message\":" + message + close + "\n\n")
  {
    var line := open + code + ",\"message\":" + message + close;
    assert OneLine(open + code) && OneLine(",\"message\":" + message);
    LinesAreOneEvent(head, line);
    assert head + open + code + ",\"message\":" + message + close + "\n\n" == head + line + "\n\n";
  }

  /** Printable text holds no line break. */
  predicate Printable(s: string) {
    forall i | 0 <= i < |s| :: s[i] >= ' '
  }

  lemma PrintableIsLine(s: string)
    requires Printable(s)
    ensures OneLine(s)
  {
  }

  lemma StatusPrintable()
    ensures OneLine("\"response\":{\"status\":\"failed\",")
  {
    PrintableIsLine("\"response\":{\"status\":\"failed\",");
  }

  lemma TypePrintable()
    ensures OneLine("data: {\"type\":\"response.failed\",")
  {
    PrintableIsLine("data: {\"type\":\"response.failed\",");
  }

  lemma ResponsesOpenPrintable()
    ensures OneLine(ErrorOpen(OpenAIResponses)) && ErrorOpen(OpenAIResponses) != ""
  {
    TypePrintable();
    StatusPrintable();
    PrintableIsLine("\"error\":{\"code\":");
  }

  lemma OpenPrintable(f: Format)
    ensures OneLine(ErrorOpen(f)) && ErrorOpen(f) != ""
  {
    match f {
      case Anthropic => PrintableIsLine("data: {\"type\":\"error\",\"error\":{\"type\":");
      case OpenAIResponses => ResponsesOpenPrintable();
      case _ => PrintableIsLine("data: {\"error\":{\"type\":");
    }
  }

  lemma HeadIsLine(f: Format)
    ensures var head := ErrorHead(f);
            head == "" || (|head| > 1 && OneLine(head[..|head| - 1]) && head[|head| - 1] == '\n')
  {
    match f {
      case Anthropic => assert "event: error\n"[..12] == "event: error"; PrintableIsLine("event: error");
      case OpenAIResponses =>
        assert "event: response.failed\n"[..22] == "event: response.failed";
        PrintableIsLine("event: response.failed");
      case _ =>
    }
  }

  /** Whatever its code and message, the policy error is exactly one SSE event. */
  lemma PolicyErrorIsOneEvent(c: Route, code: string, message: string)
    ensures OneEvent(PolicyErrorEvent(c, code, message))
  {
    QuoteOneLine(code);
    QuoteOneLine(message);
    OpenPrintable(c.target);
    HeadIsLine(c.target);
    ErrorLine(ErrorHead(c.target), ErrorOpen(c.target), JsonQuote(code), JsonQuote(message), ErrorClose(c.target));
  }

  // ---- Observing an event ----

  lemma NoteObserves(c: Route, m: Marks, usage: Option<Json>, ended: bool)
    ensures Observed(m, Note(c, m, usage, ended), ended)
  {
  }

  /** Observing an event never lowers a usage counter, and marks exactly the terminal events. */
  lemma ObserveIsHonest(c: Route, policySet: bool)
    ensures Honest(RulesOf(c, policySet), e => Terminal(c, e))
  {
    forall m, e ensures Observed(m, RulesOf(c, policySet).observe(m, e), Terminal(c, e)) {
      NoteObserves(c, m, NotedUsage(c, e), Terminal(c, e));
    }
  }
}
