/**
 * The accumulator trimming of `run_passthrough` and the content policy: exactly when the gated
 * bytes are those of the framed stream, and what holds even when they are not.
 */
module StreamPipeTrimming {
  import opened Seqs
  import opened Sse
  import opened StreamFormats
  import opened StreamRules
  import opened StreamRulesTheorems
  import opened StreamPipe
  import opened StreamPipeTheorems
  import opened StreamMarks

  /** Everything sent was the client form of an event that passed, plus at most one policy error. */
  ghost predicate Vetted(c: Config, sent: string) {
    exists es, tail :: VettedBy(c, sent, es, tail)
  }

  ghost predicate VettedBy(c: Config, sent: string, es: seq<string>, tail: string) {
    AllPass(c, 0, es) && (tail == "" || IsError(c, tail)) && sent <= Flatten(Map(c.rules.form, es)) + tail
  }

  ghost predicate Fed(c: Config, p: Pipe, es: seq<string>) {
    && !p.stopped && AllPass(c, 0, es)
    && p.asked == AskedAt(c, 0, es, |es|) && p.sent == Delivery(c, 0, es)
  }

  lemma DeliveryVetted(c: Config, sent: string, es: seq<string>)
    requires sent <= Delivery(c, 0, es)
    ensures Vetted(c, sent)
  {
    var k := Cleared(c, 0, es);
    DeliveryIsGated(c, 0, es);
    ClearedPrefix(c, 0, es);
    AllPassDelivery(c, es[..k]);
    var tail := if k < |es| then Refusal(c, AskedAt(c, 0, es, k), es[k]) else "";
    assert VettedBy(c, sent, es[..k], tail);
  }

  lemma ChunkVetted(c: Config, run: Run, es: seq<string>, chunk: string)
    requires c.policy.Some? && Fed(c, run.pipe, es)
    ensures var run' := PassthroughEvents(c, run.pipe, run.buffer + chunk);
            && (run'.exit == Running ==> exists es' :: Fed(c, run'.pipe, es'))
            && Vetted(c, run'.pipe.sent)
  {
    var more := Events(run.buffer + chunk);
    var fed := Feed(c, run.pipe, more);
    AskedConcat(c, 0, es, more);
    FeedDelivers(c, run.pipe, more);
    DeliveryVetted(c, fed.sent, es + more);
    if !fed.stopped {
      FeedKeeps(c, run.pipe, more);
      assert Fed(c, fed, es + more);
      var rest := Rest(run.buffer + chunk);
      if |rest| > c.maxPolicyEventBytes {
        var judged := ApplyPolicy(c, fed, rest, rest).0;
        EmitEffect(c, judged);
        AllPassDelivery(c, es + more);
        assert IsError(c, ErrorOf(c, judged.result));
        assert VettedBy(c, EmitPolicyError(c, judged).sent, es + more, ErrorOf(c, judged.result));
      }
    }
  }

  /** Whatever the buffer sizes, with a policy set nothing reaches the client that did not pass it. */
  lemma {:induction false} PassthroughIsVetted(c: Config, ticks: seq<Tick>)
    requires c.policy.Some?
    ensures var run := PassThrough(c, ticks);
            && (run.exit == Running ==> exists es :: Fed(c, run.pipe, es))
            && Vetted(c, run.pipe.sent)
  {
    if ticks == [] {
      assert Fed(c, Start, []);
      DeliveryVetted(c, "", []);
    } else {
      var n := |ticks| - 1;
      var before := PassThrough(c, ticks[..n]);
      PassthroughIsVetted(c, ticks[..n]);
      if before.exit == Running {
        var es :| Fed(c, before.pipe, es);
        if ticks[n].read.Data? && !Ends(ticks[n], before.firstToken) {
          ChunkVetted(c, before, es, ticks[n].read.bytes);
        } else if ticks[n].read.Stalled? && !Ends(ticks[n], before.firstToken) {
          assert PassThrough(c, ticks).exit == Running ==> Fed(c, PassThrough(c, ticks).pipe, es);
        }
      }
    }
  }

  // ---- A stream that drips in byte by byte ----

  /** Every read fits the read buffer; an empty one would be the end of the stream. */
  predicate Readable(c: Config, ticks: seq<Tick>) {
    forall t | t in ticks && t.read.Data? :: 1 <= |t.read.bytes| <= c.readBufSize
  }

  function DripTick(ch: char): Tick {
    DataTick([ch])
  }

  function Drip(s: string): seq<Tick> {
    Map(DripTick, s)
  }

  lemma DripBytes(s: string)
    ensures Bytes(Drip(s)) == s
  {
    var one, same := (ch: char) => [ch], (ch: char) => ch;
    assert Map(BytesOf, Drip(s)) == Map(one, s);
    FlattenSingles(s, one, same);
    assert Map(same, s) == s;
  }

  lemma DripReadable(c: Config, s: string)
    requires c.readBufSize >= 1
    ensures Readable(c, Drip(s)) && Readable(c, Drip(s) + [EOF_TICK])
  {
  }

  /** Cutting off the front of an unfinished event leaves one. */
  lemma SuffixOpen(s: string, j: nat)
    requires j <= |s| && forall m | 0 <= m <= |s| :: !Closed(s[..m])
    ensures Events(s[j..]) == [] && Rest(s[j..]) == s[j..]
  {
    var t := s[j..];
    forall m | 0 <= m <= |t| ensures !Closed(t[..m]) {
      var u, v := t[..m], s[..j + m];
      assert forall i | 0 <= i < m :: u[i] == v[j + i];
    }
    CutIsFirstEvent(t);
  }

  /** Cutting off the front of a single event leaves a single event. */
  lemma SuffixIsOneEvent(s: string, j: nat)
    requires OneEvent(s) && |s| >= 2 && LfLfAt(s, |s| - 2) && j <= |s| - 2
    ensures OneEvent(s[j..])
  {
    var t := s[j..];
    OpenBefore(s);
    forall m | 0 <= m < |t| ensures !Closed(t[..m]) {
      var u, v := t[..m], s[..j + m];
      assert forall i | 0 <= i < m :: u[i] == v[j + i];
    }
    assert t[..|t|] == t;
    CutIs(t, |t|);
    assert t[|t|..] == "";
  }

  /** No proper prefix of a single event is closed. */
  lemma OpenBefore(s: string)
    requires OneEvent(s)
    ensures forall m | 0 <= m < |s| :: !Closed(s[..m])
  {
    CutIsFirstEvent(s);
    var n := Cut(s).value;
    assert Events(s)[0] == s[..n];
  }

  /** A buffer and a policy limit that let the trimming strike. */
  predicate Trims(c: Config) {
    c.readBufSize >= 1 && (c.policy.Some? ==> c.maxPolicyEventBytes > 4 * c.readBufSize)
  }

  /** The accumulator holds the end of the unfinished event from `j` on, and nothing has happened yet. */
  ghost predicate Dripped(c: Config, run: Run, s: string, j: nat) {
    && run.exit == Running && !run.pipe.stopped && run.pipe.result.marks == NoMarks
    && (c.policy.Some? ==> run.pipe == Start)
    && j <= |s| && run.buffer == s[j..] && |run.buffer| <= 4 * c.readBufSize
    && (s != "" ==> j < |s|) && (|s| > 4 * c.readBufSize ==> j >= 1)
  }

  /** One more byte of an unfinished event. */
  lemma DripOne(c: Config, run: Run, s: string, ch: char, j: nat) returns (j': nat)
    requires Trims(c) && Accepting(c) && Dripped(c, run, s, j)
    requires forall m | 0 <= m <= |s| + 1 :: !Closed((s + [ch])[..m])
    ensures Dripped(c, PassthroughTurn(c, run, DripTick(ch)), s + [ch], j')
  {
    var s', r := s + [ch], c.readBufSize;
    WriteAllEffect(c, run.pipe, [ch]);
    assert run.buffer + [ch] == s'[j..];
    SuffixOpen(s', j);
    j' := j;
    if |s'| - j > 4 * r {
      j' := |s'| - r;
      assert s'[j..][|s'| - j - r..] == s'[j'..];
    }
  }

  lemma DripSnoc(c: Config, s: string, ch: char)
    ensures PassThrough(c, Drip(s + [ch])) == PassthroughTurn(c, PassThrough(c, Drip(s)), DripTick(ch))
  {
    assert Drip(s + [ch]) == Drip(s) + [DripTick(ch)];
    assert (Drip(s) + [DripTick(ch)])[..|s|] == Drip(s);
  }

  /** However long the event is, the accumulator ends up with a part of it that misses its front. */
  lemma {:induction false} Dripping(c: Config, s: string) returns (j: nat)
    requires Trims(c) && Accepting(c)
    requires forall m | 0 <= m <= |s| :: !Closed(s[..m])
    ensures Dripped(c, PassThrough(c, Drip(s)), s, j)
  {
    j := 0;
    if s != "" {
      var n := |s| - 1;
      var t, ch := s[..n], s[n];
      assert t + [ch] == s;
      assert forall m | 0 <= m <= n :: t[..m] == s[..m];
      j := Dripping(c, t);
      DripSnoc(c, t, ch);
      j := DripOne(c, PassThrough(c, Drip(t)), t, ch, j);
    }
  }

  /** A long event that drips in is seen and delivered without its front. */
  lemma DripEvent(c: Config, s: string) returns (j: nat, p: Pipe)
    requires Trims(c) && Accepting(c)
    requires OneEvent(s) && |s| > 4 * c.readBufSize + 1 && LfLfAt(s, |s| - 2)
    ensures 1 <= j <= |s| - 2 && OneEvent(s[j..]) && |s[j..]| <= 4 * c.readBufSize + 1
    ensures PassThrough(c, Drip(s)) == PassthroughEvents(c, p, s[j..])
    ensures !p.stopped && p.result.marks == NoMarks && (c.policy.Some? ==> p == Start)
  {
    var n := |s| - 1;
    var t, ch := s[..n], s[n];
    OpenBefore(s);
    assert t + [ch] == s && forall m | 0 <= m <= n :: t[..m] == s[..m];
    j := Dripping(c, t);
    SuffixIsOneEvent(s, j);
    var run := PassThrough(c, Drip(t));
    assert run.buffer + [ch] == s[j..];
    DripSnoc(c, t, ch);
    WriteAllEffect(c, run.pipe, [ch]);
    p := if c.policy.Some? then run.pipe else WriteAll(c, run.pipe, [ch]).0;
  }

  function Line(n: nat): string {
    seq(n, i => 'a')
  }

  // ---- Gating ----

  /** A pass-through route with a policy that allows everything and a client that never disconnects. */
  function Allowing(route: Route, readBufSize: nat, maxPolicyEventBytes: nat): Config {
    Config(RulesOf(route, true), readBufSize, maxPolicyEventBytes, false,
           Some((k: nat, s: string) => Decision(Allow, "", "")), k => 1)
  }

  function LongLine(r: nat): string {
    Line(4 * r + 1) + "b\n\n"
  }

  lemma LongLineIsOneEvent(r: nat)
    ensures OneEvent(LongLine(r)) && LfLfAt(LongLine(r), |LongLine(r)| - 2)
  {
    LinesAreOneEvent("", Line(4 * r + 1) + "b");
    assert "" + (Line(4 * r + 1) + "b") + "\n\n" == LongLine(r);
  }

  lemma AllowedIsSent(route: Route, r: nat, max: nat, e: string)
    requires route.mode == Passthrough && |e| <= max
    ensures Feed(Allowing(route, r, max), Start, [e]).sent == e
  {
    var c := Allowing(route, r, max);
    assert [e][1..] == [] && Passes(c, 0, e) && Delivery(c, 0, [e]) == e + "";
    FeedDelivers(c, Start, [e]);
  }

  /** The client receives the end of the event, whose front it should have received. */
  lemma TrimmedRun(route: Route, r: nat, max: nat) returns (j: nat)
    requires route.mode == Passthrough && r >= 1 && max > 4 * r
    ensures 1 <= j <= 4 * r + 2
    ensures PassThrough(Allowing(route, r, max), Drip(LongLine(r))).pipe.sent == LongLine(r)[j..]
  {
    var c, s, p := Allowing(route, r, max), LongLine(r), Start;
    LongLineIsOneEvent(r);
    j, p := DripEvent(c, s);
    AllowedIsSent(route, r, max, s[j..]);
  }

  lemma ErrorStart(route: Route, tail: string)
    requires IsError(Allowing(route, 0, 0), tail)
    ensures tail != "" && (tail[0] == 'd' || tail[0] == 'e')
  {
    var head := ErrorHead(route.target) + ErrorOpen(route.target);
    assert head[0] == 'd' || head[0] == 'e';
  }

  lemma LongLineAt(r: nat, i: nat)
    requires i < |LongLine(r)|
    ensures LongLine(r)[i] == if i <= 4 * r then 'a' else if i == 4 * r + 1 then 'b' else '\n'
    ensures |LongLine(r)| == 4 * r + 4
  {
  }

  lemma DiffersAt(a: string, b: string, i: nat)
    requires i < |a| && (i < |b| ==> a[i] != b[i])
    ensures !(a <= b)
  {
  }

  lemma NotAPrefix(r: nat, j: nat, es: seq<string>, tail: string)
    requires 1 <= j <= 4 * r + 2 && es <= [LongLine(r)]
    requires tail == "" || tail[0] == 'd' || tail[0] == 'e'
    ensures !(LongLine(r)[j..] <= Flatten(es) + tail)
  {
    var whole := LongLine(r);
    LongLineAt(r, j);
    if es == [] {
      assert Flatten(es) + tail == tail;
      DiffersAt(whole[j..], tail, 0);
    } else {
      assert es == [whole];
      FlattenOne(whole);
      var i := if j <= 4 * r + 1 then 4 * r + 1 - j else 0;
      LongLineAt(r, i);
      LongLineAt(r, j + i);
      DiffersAt(whole[j..], whole + tail, i);
    }
  }

  lemma TrimmedRunNotGated(route: Route, r: nat, max: nat, j: nat)
    requires route.mode == Passthrough && 1 <= j <= 4 * r + 2
    ensures !Gated(Allowing(route, r, max), LongLine(r)[j..], LongLine(r))
  {
    var c, sent, whole := Allowing(route, r, max), LongLine(r)[j..], LongLine(r);
    LongLineIsOneEvent(r);
    forall es, tail | es <= Events(whole) && (tail == "" || IsError(c, tail))
      ensures !GatedWith(c, sent, whole, es, tail)
    {
      assert Map(c.rules.form, es) == es;
      if tail != "" {
        assert IsError(Allowing(route, 0, 0), tail);
        ErrorStart(route, tail);
      }
      NotAPrefix(r, j, es, tail);
    }
  }

  /** Whatever the policy, the client, the clock and the provider do with buffers of these sizes. */
  ghost predicate AlwaysGated(route: Route, r: nat, max: nat) {
    forall c: Config, ticks: seq<Tick> |
      && Serves(c, route) && c.policy.Some? && c.readBufSize == r && c.maxPolicyEventBytes == max
      && Readable(c, ticks) ::
      Gated(c, PassThrough(c, ticks).pipe.sent, Bytes(ticks))
  }

  /** Nothing can be read into an empty buffer. */
  lemma {:induction false} NothingRead(c: Config, ticks: seq<Tick>)
    requires Readable(c, ticks) && c.readBufSize == 0
    ensures Bytes(ticks) == ""
  {
    if ticks != [] {
      NothingRead(c, ticks[..|ticks| - 1]);
      BytesSnoc(ticks);
      assert ticks[|ticks| - 1] in ticks;
    }
  }

  lemma NothingTrimmed(c: Config, ticks: seq<Tick>)
    requires Readable(c, ticks) && c.readBufSize == 0
    ensures Untrimmed(c, ticks)
  {
    forall i | 0 <= i <= |ticks| ensures Kept(c, Bytes(ticks[..i])) {
      NothingRead(c, ticks[..i]);
    }
  }

  /**
   * On every pass-through route, the sizes for which every run is gated on the framed stream are
   * exactly those whose policy limit strikes before the trimming does.
   */
  lemma GatedExactlyWithoutTrimming(route: Route, r: nat, max: nat)
    requires route.mode == Passthrough
    ensures AlwaysGated(route, r, max) <==> r == 0 || max <= 4 * r
  {
    if r == 0 || max <= 4 * r {
      forall c: Config, ticks: seq<Tick> |
        && Serves(c, route) && c.policy.Some? && c.readBufSize == r && c.maxPolicyEventBytes == max
        && Readable(c, ticks)
        ensures Gated(c, PassThrough(c, ticks).pipe.sent, Bytes(ticks))
      {
        if r == 0 { NothingTrimmed(c, ticks); } else { NoTrimKeeps(c, ticks); }
        PassthroughIsGated(c, ticks);
      }
    } else {
      var c, s := Allowing(route, r, max), LongLine(r);
      var j := TrimmedRun(route, r, max);
      TrimmedRunNotGated(route, r, max, j);
      DripBytes(s);
      DripReadable(c, s);
      assert Serves(c, route);
    }
  }

  // ---- Terminal events ----

  lemma NoNameLine(e: string, pos: nat, f: Fields, trimData: bool)
    requires pos < |e| && forall i | 0 <= i < |e| && e[i] == 'v' :: i == 0
    ensures ScanLine(f, e[pos..LineEnd(e, pos)], trimData).event == f.event
  {
    var line := e[pos..LineEnd(e, pos)];
    assert |line| > 1 ==> line[1] == e[pos + 1];
    assert "event:"[1] == 'v';
  }

  /** An event none of whose lines can be an `event:` line has no event name. */
  lemma {:induction false} NoName(e: string, pos: nat, f: Fields, trimData: bool)
    requires pos <= |e| && forall i | 0 <= i < |e| && e[i] == 'v' :: i == 0
    ensures ScanFrom(e, pos, f, trimData).event == f.event
    decreases |e| - pos
  {
    if pos < |e| {
      var line := e[pos..LineEnd(e, pos)];
      ScanStep(e, pos, f, trimData);
      NoNameLine(e, pos, f, trimData);
      if LineEnd(e, pos) < |e| { NoName(e, LineEnd(e, pos) + 1, ScanLine(f, line, trimData), trimData); }
    }
  }

  /** An Anthropic end of stream with a long payload. */
  function LongStop(r: nat): string {
    NamedEvent("message_stop", Line(4 * r + 1))
  }

  lemma LongStopIsTerminal(route: Route, r: nat)
    requires route.source == Anthropic
    ensures OneEvent(LongStop(r)) && LfLfAt(LongStop(r), |LongStop(r)| - 2)
    ensures Terminal(route, LongStop(r))
  {
    NamedIsOneEvent("message_stop", Line(4 * r + 1));
    ScanNamed("message_stop", Line(4 * r + 1), true);
  }

  lemma LongStopCut(route: Route, r: nat, j: nat)
    requires route.source == Anthropic && 1 <= j <= |LongStop(r)|
    ensures !Terminal(route, LongStop(r)[j..])
  {
    var s := LongStop(r);
    var e := s[j..];
    forall i | 0 <= i < |s| && s[i] == 'v' ensures i == 1 {
    }
    forall i | 0 <= i < |e| && e[i] == 'v' ensures i == 0 {
      assert s[j + i] == 'v';
    }
    NoName(e, 0, Fields("", ""), true);
  }

  lemma CutMarks(c: Config, route: Route, p: Pipe, e: string)
    requires Serves(c, route) && route.mode == Passthrough && c.policy.None?
    requires OneEvent(e) && !Terminal(route, e)
    requires !p.stopped && p.result.marks == NoMarks
    ensures var run := PassthroughEvents(c, p, e);
            run.exit == Running && !run.pipe.result.marks.terminalEventSeen
  {
    ObserveIsHonest(route, false);
    FeedSilent(c, p, [e]);
    OnEventMarks(c, p, e);
    assert Feed(c, p, [e]) == OnEvent(c, p, e);
    assert Observed(NoMarks, c.rules.observe(NoMarks, e), Terminal(route, e));
  }

  /** A long event none of whose later parts is terminal drips in unnoticed. */
  lemma StopDripped(c: Config, route: Route, stop: string)
    requires Serves(c, route) && route.mode == Passthrough
    requires c.policy.None? && Accepting(c) && c.readBufSize >= 1
    requires OneEvent(stop) && |stop| > 4 * c.readBufSize + 1 && LfLfAt(stop, |stop| - 2)
    requires forall j | 1 <= j <= |stop| :: !Terminal(route, stop[j..])
    ensures var run := PassThrough(c, Drip(stop));
            run.exit == Running && run.pipe.sent == stop && !run.pipe.result.marks.terminalEventSeen
  {
    var j, p := DripEvent(c, stop);
    CutMarks(c, route, p, stop[j..]);
    DripBytes(stop);
    PassthroughIsRaw(c, Drip(stop));
  }

  /** The end of a stream whose terminal event was not seen. */
  lemma EofUnseen(c: Config, ticks: seq<Tick>)
    requires PassThrough(c, ticks).exit == Running && !PassThrough(c, ticks).pipe.result.marks.terminalEventSeen
    ensures var run := PassThrough(c, ticks + [EOF_TICK]);
            && run.exit == Ended && run.pipe.sent == PassThrough(c, ticks).pipe.sent
            && !run.pipe.result.marks.terminalEventSeen
            && run.pipe.result.incomplete && run.pipe.result.providerDisconnect
    ensures Bytes(ticks + [EOF_TICK]) == Bytes(ticks)
  {
    assert (ticks + [EOF_TICK])[..|ticks|] == ticks;
    BytesSnoc(ticks + [EOF_TICK]);
  }

  /** The run passed the whole stream on, and reports that the provider broke it off. */
  predicate ReportedBroken(run: Run, stream: string) {
    && run.exit == Ended && run.pipe.sent == stream
    && !run.pipe.result.marks.terminalEventSeen
    && run.pipe.result.incomplete && run.pipe.result.providerDisconnect
  }

  /**
   * Whatever the size of the read buffer, an Anthropic stream that ends as it should can be passed
   * on whole and still be reported as broken off: its terminal event is longer than four buffers.
   */
  lemma TerminalLost(c: Config, route: Route)
    requires Serves(c, route) && route.mode == Passthrough && route.source == Anthropic
    requires c.policy.None? && Accepting(c) && c.readBufSize >= 1
    ensures var stop := LongStop(c.readBufSize);
            var ticks := Drip(stop) + [EOF_TICK];
            && Readable(c, ticks) && Bytes(ticks) == stop && Events(stop) == [stop] && Terminal(route, stop)
            && ReportedBroken(PassThrough(c, ticks), stop)
  {
    var r := c.readBufSize;
    LongStopIsTerminal(route, r);
    forall j | 1 <= j <= |LongStop(r)| ensures !Terminal(route, LongStop(r)[j..]) {
      LongStopCut(route, r, j);
    }
    LostStream(c, route, LongStop(r));
  }

  lemma LostStream(c: Config, route: Route, stop: string)
    requires Serves(c, route) && route.mode == Passthrough
    requires c.policy.None? && Accepting(c) && c.readBufSize >= 1
    requires OneEvent(stop) && |stop| > 4 * c.readBufSize + 1 && LfLfAt(stop, |stop| - 2)
    requires forall j | 1 <= j <= |stop| :: !Terminal(route, stop[j..])
    ensures var ticks := Drip(stop) + [EOF_TICK];
            Readable(c, ticks) && Bytes(ticks) == stop && ReportedBroken(PassThrough(c, ticks), stop)
  {
    StopDripped(c, route, stop);
    DripBytes(stop);
    DripReadable(c, stop);
    EofUnseen(c, Drip(stop));
  }
}
