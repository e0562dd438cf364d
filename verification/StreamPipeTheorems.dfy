/** What every run of the streaming pipe keeps. */
module StreamPipeTheorems {
  import opened Seqs
  import opened Sse
  import opened StreamRules
  import opened StreamPipe

  /** The pipe of a route: its own client forms, usage and terminal rules, exemptions and error events. */
  ghost predicate Serves(c: Config, route: Route) {
    c.rules == RulesOf(route, c.policy.Some?)
  }

  // ---- Client writes ----

  /** A client that never disconnects. */
  ghost predicate Accepting(c: Config) {
    forall k :: c.accepts(k) > 0
  }

  /** However the writes are split, the client receives a prefix; all of it exactly when none fails. */
  lemma {:induction false} WriteEffect(c: Config, p: Pipe, data: string, written: nat)
    requires written <= |data|
    ensures var (q, ok) := WriteFrom(c, p, data, written);
            && q.asked == p.asked && q.stopped == p.stopped
            && p.sent <= q.sent <= p.sent + data[written..]
            && (ok ==> q.sent == p.sent + data[written..]
                       && q.result == p.result.(bytesForwarded := p.result.bytesForwarded + |data|))
            && (!ok ==> q.result == p.result.(clientDisconnect := true) && q.sent != p.sent + data[written..])
            && (Accepting(c) ==> ok)
    decreases |data| - written
  {
    if written < |data| {
      var n := Taken(c, p.writes, |data| - written);
      if n > 0 {
        var piece, rest := data[written..written + n], data[written + n..];
        var p' := p.(writes := p.writes + 1, sent := p.sent + piece);
        WriteEffect(c, p', data, written + n);
        assert data[written..] == piece + rest;
        Assoc(p.sent, piece, rest);
        PrefixTrans(p.sent, p'.sent, WriteFrom(c, p', data, written + n).0.sent);
      }
    }
  }

  lemma WriteAllEffect(c: Config, p: Pipe, data: string)
    ensures var (q, ok) := WriteAll(c, p, data);
            && q.asked == p.asked && q.stopped == p.stopped
            && p.sent <= q.sent <= p.sent + data
            && (ok ==> q.sent == p.sent + data
                       && q.result == p.result.(bytesForwarded := p.result.bytesForwarded + |data|))
            && (!ok ==> q.result == p.result.(clientDisconnect := true))
            && (Accepting(c) ==> ok)
  {
    WriteEffect(c, p, data, 0);
    assert data[0..] == data;
  }

  // ---- Gating ----

  function Content(c: Config, event: string): string {
    if c.rules.form(event) == "" then event else c.rules.form(event)
  }

  /** The policy allows the event, or the event is exempt. */
  predicate Passes(c: Config, asked: nat, event: string) {
    || Exempt(c, event)
    || (|Content(c, event)| <= c.maxPolicyEventBytes
        && (c.policy.value)(asked, Content(c, event)).disposition == Allow)
  }

  function ErrorOf(c: Config, r: StreamResult): string {
    c.rules.error(r.policyErrorCode, r.policyMessage)
  }

  /** The error event the client is sent in place of a refused one. */
  function Refusal(c: Config, asked: nat, event: string): string
    requires !Passes(c, asked, event)
  {
    ErrorOf(c, Refuse(FreshResult, Judge(c, asked, Content(c, event))))
  }

  /** All that a client may receive for a list of events. */
  function Delivery(c: Config, asked: nat, es: seq<string>): string
    decreases |es|
  {
    if es == [] then ""
    else if Passes(c, asked, es[0]) then
      c.rules.form(es[0]) + Delivery(c, AskedAfter(c, asked, es[0], Content(c, es[0])), es[1..])
    else Refusal(c, asked, es[0])
  }

  lemma EmitEffect(c: Config, p: Pipe)
    ensures var q := EmitPolicyError(c, p);
            && p.sent <= q.sent <= p.sent + ErrorOf(c, p.result)
            && (Accepting(c) ==> q.sent == p.sent + ErrorOf(c, p.result))
  {
    WriteAllEffect(c, p, ErrorOf(c, p.result));
  }

  /** The pipe once the event is observed and judged. */
  function Judged(c: Config, p: Pipe, e: string): (Pipe, bool) {
    ApplyPolicy(c, p.(result := p.result.(marks := c.rules.observe(p.result.marks, e))), e, c.rules.form(e))
  }

  lemma JudgedIs(c: Config, p: Pipe, e: string)
    ensures var (judged, ok) := Judged(c, p, e);
            && ok == Passes(c, p.asked, e)
            && judged.sent == p.sent && judged.stopped == p.stopped
            && judged.asked == AskedAfter(c, p.asked, e, Content(c, e))
            && (!ok ==> ErrorOf(c, judged.result) == Refusal(c, p.asked, e))
  {
  }

  lemma PassedDelivers(c: Config, p: Pipe, e: string)
    requires !p.stopped && Passes(c, p.asked, e)
    ensures var q, form := OnEvent(c, p, e), c.rules.form(e);
            && p.sent <= q.sent <= p.sent + form
            && (Accepting(c) ==> !q.stopped)
            && (!q.stopped ==> q.sent == p.sent + form && q.asked == AskedAfter(c, p.asked, e, Content(c, e)))
  {
    JudgedIs(c, p, e);
    WriteAllEffect(c, Judged(c, p, e).0, c.rules.form(e));
  }

  lemma RefusedDelivers(c: Config, p: Pipe, e: string)
    requires !p.stopped && !Passes(c, p.asked, e)
    ensures var q, refusal := OnEvent(c, p, e), Refusal(c, p.asked, e);
            && p.sent <= q.sent <= p.sent + refusal && q.stopped
            && (Accepting(c) ==> q.sent == p.sent + refusal)
  {
    JudgedIs(c, p, e);
    EmitEffect(c, Judged(c, p, e).0);
  }

  lemma OnEventDelivers(c: Config, p: Pipe, e: string)
    requires !p.stopped
    ensures var q := OnEvent(c, p, e);
            var part := if Passes(c, p.asked, e) then c.rules.form(e) else Refusal(c, p.asked, e);
            && p.sent <= q.sent <= p.sent + part
            && (Accepting(c) ==> q.sent == p.sent + part)
            && (!Passes(c, p.asked, e) ==> q.stopped)
            && (!q.stopped ==> q.sent == p.sent + part
                               && q.asked == AskedAfter(c, p.asked, e, Content(c, e)))
            && (Accepting(c) && Passes(c, p.asked, e) ==> !q.stopped)
  {
    if Passes(c, p.asked, e) { PassedDelivers(c, p, e); } else { RefusedDelivers(c, p, e); }
  }

  /** For every event list and every write behaviour the client holds a prefix of the delivery. */
  lemma {:induction false} FeedDelivers(c: Config, p: Pipe, es: seq<string>)
    requires !p.stopped
    ensures var q := Feed(c, p, es);
            && p.sent <= q.sent <= p.sent + Delivery(c, p.asked, es)
            && (Accepting(c) || !q.stopped ==> q.sent == p.sent + Delivery(c, p.asked, es))
    decreases |es|
  {
    if es != [] {
      var q := OnEvent(c, p, es[0]);
      OnEventDelivers(c, p, es[0]);
      if Passes(c, p.asked, es[0]) {
        var form := c.rules.form(es[0]);
        var rest := Delivery(c, AskedAfter(c, p.asked, es[0], Content(c, es[0])), es[1..]);
        Assoc(p.sent, form, rest);
        if q.stopped {
          PrefixTrans(q.sent, p.sent + form, p.sent + form + rest);
        } else {
          FeedDelivers(c, q, es[1..]);
          PrefixTrans(p.sent, q.sent, Feed(c, q, es[1..]).sent);
        }
      }
    }
  }

  /** How many leading events pass. */
  function Cleared(c: Config, asked: nat, es: seq<string>): (k: nat)
    ensures k <= |es|
    decreases |es|
  {
    if es == [] || !Passes(c, asked, es[0]) then 0
    else 1 + Cleared(c, AskedAfter(c, asked, es[0], Content(c, es[0])), es[1..])
  }

  /** The number of consultations before the i-th event of a cleared run. */
  function AskedAt(c: Config, asked: nat, es: seq<string>, i: nat): nat
    requires i <= |es|
    decreases i
  {
    if i == 0 then asked
    else AskedAt(c, AskedAfter(c, asked, es[0], Content(c, es[0])), es[1..], i - 1)
  }

  /**
   * A delivery is the client forms of a leading run of events, each allowed or exempt, and at most
   * one policy error, for the first event that is neither.
   */
  lemma {:induction false} DeliveryIsGated(c: Config, asked: nat, es: seq<string>)
    ensures var k := Cleared(c, asked, es);
            && (forall i | 0 <= i < k :: Passes(c, AskedAt(c, asked, es, i), es[i]))
            && (k < |es| ==> !Passes(c, AskedAt(c, asked, es, k), es[k]))
            && Delivery(c, asked, es)
               == Flatten(Map(c.rules.form, es[..k]))
                  + (if k < |es| then Refusal(c, AskedAt(c, asked, es, k), es[k]) else "")
    decreases |es|
  {
    var k := Cleared(c, asked, es);
    var form := c.rules.form;
    if k == 0 {
      assert Map(form, es[..0]) == [];
    } else {
      var asked' := AskedAfter(c, asked, es[0], Content(c, es[0]));
      var tail := es[1..];
      DeliveryIsGated(c, asked', tail);
      forall i | 0 <= i < k
        ensures Passes(c, AskedAt(c, asked, es, i), es[i])
      {
        if i > 0 { assert Passes(c, AskedAt(c, asked', tail, i - 1), tail[i - 1]); }
      }
      var forms := Map(form, tail[..k - 1]);
      assert Map(form, es[..k]) == [form(es[0])] + forms;
      FlattenConcat([form(es[0])], forms);
      FlattenOne(form(es[0]));
      Assoc(form(es[0]), Flatten(forms),
            if k < |es| then Refusal(c, AskedAt(c, asked, es, k), es[k]) else "");
    }
  }

  // ---- Whole runs ----

  function BytesOf(t: Tick): string {
    if t.read.Data? then t.read.bytes else ""
  }

  /** The provider bytes of a script of ticks. */
  function Bytes(ticks: seq<Tick>): string {
    Flatten(Map(BytesOf, ticks))
  }

  lemma BytesSnoc(ticks: seq<Tick>)
    requires ticks != []
    ensures Bytes(ticks) == Bytes(ticks[..|ticks| - 1]) + BytesOf(ticks[|ticks| - 1])
  {
    assert Map(BytesOf, ticks)[..|ticks| - 1] == Map(BytesOf, ticks[..|ticks| - 1]);
  }

  lemma {:induction false} FeedConcat(c: Config, p: Pipe, a: seq<string>, b: seq<string>)
    ensures Feed(c, p, a + b) == Feed(c, Feed(c, p, a), b)
    decreases |a|
  {
    if a == [] {
      assert a + b == b;
    } else if !p.stopped {
      assert (a + b)[1..] == a[1..] + b;
      FeedConcat(c, OnEvent(c, p, a[0]), a[1..], b);
    }
  }

  /** While `run_transform` runs, its state is that of framing all the bytes so far in one shot. */
  lemma {:induction false} TransformFramesOnce(c: Config, ticks: seq<Tick>)
    ensures var run, bytes := Transform(c, ticks), Bytes(ticks);
            && (run.exit == Running ==>
                  && run.buffer == Rest(bytes)
                  && run.pipe == Feed(c, Start, Events(bytes))
                  && !run.pipe.stopped)
            && (run.exit == Stopped ==>
                  run.pipe.stopped && exists es :: es <= Events(bytes) && run.pipe == Feed(c, Start, es))
  {
    if ticks == [] {
      assert Bytes(ticks) == "" && Events("") == [] && Rest("") == "";
    } else {
      var n := |ticks| - 1;
      var before, t := Transform(c, ticks[..n]), ticks[n];
      TransformFramesOnce(c, ticks[..n]);
      BytesSnoc(ticks);
      FramingResumes(Bytes(ticks[..n]), BytesOf(t));
      if before.exit == Running {
        FeedConcat(c, Start, Events(Bytes(ticks[..n])), Events(before.buffer + BytesOf(t)));
        if !t.read.Data? { assert Bytes(ticks) == Bytes(ticks[..n]); }
      }
    }
  }

  function DataTick(bytes: string): Tick {
    Tick(Data(bytes), false, false, false, false)
  }

  const EOF_TICK: Tick := Tick(Eof, false, false, false, false)

  /** The stream is read in these chunks and then ends, within every deadline. */
  function Script(chunks: seq<string>): seq<Tick> {
    Map(DataTick, chunks) + [EOF_TICK]
  }

  /** The reference: frame the whole stream at once and feed the events. */
  function OneShot(c: Config, bytes: string): Pipe {
    var p := Feed(c, Start, Events(bytes));
    if p.stopped then p else p.(result := Close(p.result, EOF_TICK))
  }

  lemma {:induction false} OnlyData(c: Config, ticks: seq<Tick>)
    requires forall t | t in ticks :: t == DataTick(BytesOf(t))
    ensures Transform(c, ticks).exit == Running || Transform(c, ticks).exit == Stopped
  {
    if ticks != [] {
      assert ticks[|ticks| - 1] in ticks;
      OnlyData(c, ticks[..|ticks| - 1]);
    }
  }

  /**
   * Chunking does not matter: for every stream, every split of it, every policy and every write
   * behaviour, `run_transform` ends as the one-shot framing of the whole stream does.
   */
  lemma ChunkingDoesNotMatter(c: Config, chunks: seq<string>)
    ensures Transform(c, Script(chunks)).pipe == OneShot(c, Flatten(chunks))
  {
    var ticks, bytes := Map(DataTick, chunks), Flatten(chunks);
    assert Map(BytesOf, ticks) == chunks;
    OnlyData(c, ticks);
    TransformFramesOnce(c, ticks);
    assert Script(chunks)[..|chunks|] == ticks;
    var run := Transform(c, ticks);
    if run.exit == Stopped {
      var es :| es <= Events(bytes) && run.pipe == Feed(c, Start, es);
      FeedConcat(c, Start, es, Events(bytes)[|es|..]);
      assert Events(bytes) == es + Events(bytes)[|es|..];
    }
  }

  /** Hence any two splits of the same stream give the same client bytes and the same result. */
  lemma SplitsAgree(c: Config, a: seq<string>, b: seq<string>)
    requires Flatten(a) == Flatten(b)
    ensures Transform(c, Script(a)).pipe == Transform(c, Script(b)).pipe
  {
    ChunkingDoesNotMatter(c, a);
    ChunkingDoesNotMatter(c, b);
  }

  // ---- Gating over whole runs ----

  predicate AllPass(c: Config, asked: nat, es: seq<string>) {
    Cleared(c, asked, es) == |es|
  }

  lemma {:induction false} AskedConcat(c: Config, asked: nat, a: seq<string>, b: seq<string>)
    requires AllPass(c, asked, a)
    ensures Delivery(c, asked, a + b) == Delivery(c, asked, a) + Delivery(c, AskedAt(c, asked, a, |a|), b)
    ensures Cleared(c, asked, a + b) == |a| + Cleared(c, AskedAt(c, asked, a, |a|), b)
    ensures AllPass(c, AskedAt(c, asked, a, |a|), b) ==>
              AskedAt(c, asked, a + b, |a + b|) == AskedAt(c, AskedAt(c, asked, a, |a|), b, |b|)
    decreases |a|
  {
    if a == [] {
      assert a + b == b;
    } else {
      var asked' := AskedAfter(c, asked, a[0], Content(c, a[0]));
      assert (a + b)[1..] == a[1..] + b;
      AskedConcat(c, asked', a[1..], b);
      Assoc(c.rules.form(a[0]), Delivery(c, asked', a[1..]), Delivery(c, AskedAt(c, asked, a, |a|), b));
    }
  }

  /** A pipe that has not stopped has cleared and delivered everything it was fed. */
  lemma {:induction false} FeedKeeps(c: Config, p: Pipe, es: seq<string>)
    requires !p.stopped && !Feed(c, p, es).stopped
    ensures AllPass(c, p.asked, es) && Feed(c, p, es).asked == AskedAt(c, p.asked, es, |es|)
    decreases |es|
  {
    if es != [] {
      OnEventDelivers(c, p, es[0]);
      if !OnEvent(c, p, es[0]).stopped { FeedKeeps(c, OnEvent(c, p, es[0]), es[1..]); }
    }
  }

  ghost predicate IsError(c: Config, s: string) {
    exists code, message :: s == c.rules.error(code, message)
  }

  /**
   * The client bytes are a prefix of the client forms of some leading run of framed events, each
   * allowed or exempt, followed by at most one policy error event.
   */
  ghost predicate Gated(c: Config, sent: string, bytes: string) {
    exists es, tail :: GatedWith(c, sent, bytes, es, tail)
  }

  ghost predicate GatedWith(c: Config, sent: string, bytes: string, es: seq<string>, tail: string) {
    && es <= Events(bytes)
    && AllPass(c, 0, es)
    && (tail == "" || IsError(c, tail))
    && sent <= Flatten(Map(c.rules.form, es)) + tail
  }

  lemma AllPassDelivery(c: Config, es: seq<string>)
    requires AllPass(c, 0, es)
    ensures Delivery(c, 0, es) == Flatten(Map(c.rules.form, es))
  {
    DeliveryIsGated(c, 0, es);
    assert es[..|es|] == es;
  }

  lemma GatedBy(c: Config, sent: string, bytes: string, es: seq<string>, tail: string)
    requires es <= Events(bytes) && AllPass(c, 0, es)
    requires tail == "" || IsError(c, tail)
    requires sent <= Delivery(c, 0, es) + tail
    ensures Gated(c, sent, bytes)
  {
    AllPassDelivery(c, es);
    assert GatedWith(c, sent, bytes, es, tail);
  }

  lemma {:induction false} ClearedPrefix(c: Config, asked: nat, es: seq<string>)
    ensures AllPass(c, asked, es[..Cleared(c, asked, es)])
    decreases |es|
  {
    var k := Cleared(c, asked, es);
    if k > 0 {
      ClearedPrefix(c, AskedAfter(c, asked, es[0], Content(c, es[0])), es[1..]);
      assert es[..k][1..] == es[1..][..k - 1];
    }
  }

  lemma DeliveryGated(c: Config, sent: string, bytes: string)
    requires sent <= Delivery(c, 0, Events(bytes))
    ensures Gated(c, sent, bytes)
  {
    var es := Events(bytes);
    var k := Cleared(c, 0, es);
    DeliveryIsGated(c, 0, es);
    ClearedPrefix(c, 0, es);
    AllPassDelivery(c, es[..k]);
    var tail := if k < |es| then Refusal(c, AskedAt(c, 0, es, k), es[k]) else "";
    GatedBy(c, sent, bytes, es[..k], tail);
  }

  lemma MoreBytes(a: string, b: string)
    ensures Events(a) <= Events(a + b)
  {
    FramingResumes(a, b);
  }

  lemma GatedMore(c: Config, sent: string, a: string, b: string)
    requires Gated(c, sent, a)
    ensures Gated(c, sent, a + b)
  {
    var es, tail :| GatedWith(c, sent, a, es, tail);
    MoreBytes(a, b);
    PrefixTrans(es, Events(a), Events(a + b));
    assert GatedWith(c, sent, a + b, es, tail);
  }

  /** With or without a policy, every run of `run_transform` is gated. */
  lemma {:induction false} TransformIsGated(c: Config, ticks: seq<Tick>)
    ensures Gated(c, Transform(c, ticks).pipe.sent, Bytes(ticks))
  {
    if ticks == [] {
      GatedBy(c, "", "", [], "");
    } else {
      var n := |ticks| - 1;
      var before, bytes := Transform(c, ticks[..n]), Bytes(ticks[..n]);
      BytesSnoc(ticks);
      TransformIsGated(c, ticks[..n]);
      GatedMore(c, before.pipe.sent, bytes, BytesOf(ticks[n]));
      if before.exit == Running && ticks[n].read.Data? && !Ends(ticks[n], before.firstToken) {
        TransformFramesOnce(c, ticks[..n]);
        FramingResumes(bytes, BytesOf(ticks[n]));
        FeedConcat(c, Start, Events(bytes), Events(before.buffer + BytesOf(ticks[n])));
        FeedDelivers(c, Start, Events(Bytes(ticks)));
        DeliveryGated(c, Transform(c, ticks).pipe.sent, Bytes(ticks));
      }
    }
  }

  /** The end of a chunk at these bytes leaves a remainder that `run_passthrough` keeps whole, or stops on. */
  predicate Kept(c: Config, bytes: string) {
    |Rest(bytes)| <= 4 * c.readBufSize || (c.policy.Some? && |Rest(bytes)| > c.maxPolicyEventBytes)
  }

  /** The trimming of `run_passthrough` never strikes the stream. */
  predicate Untrimmed(c: Config, ticks: seq<Tick>) {
    forall i | 0 <= i <= |ticks| :: Kept(c, Bytes(ticks[..i]))
  }

  /** The sizes for which a policy limit always strikes before the trimming does. */
  predicate NoTrim(c: Config) {
    c.policy.Some? && c.maxPolicyEventBytes <= 4 * c.readBufSize
  }

  lemma NoTrimKeeps(c: Config, ticks: seq<Tick>)
    requires NoTrim(c)
    ensures Untrimmed(c, ticks)
  {
  }

  lemma UntrimmedPrefix(c: Config, ticks: seq<Tick>, n: nat)
    requires Untrimmed(c, ticks) && n <= |ticks|
    ensures Untrimmed(c, ticks[..n]) && Kept(c, Bytes(ticks[..n]))
  {
    forall i | 0 <= i <= n ensures Kept(c, Bytes(ticks[..n][..i])) {
      assert ticks[..n][..i] == ticks[..i];
    }
  }

  predicate PassState(c: Config, run: Run, bytes: string) {
    var es := Events(bytes);
    && run.buffer == Rest(bytes)
    && !run.pipe.stopped
    && AllPass(c, 0, es)
    && run.pipe.asked == AskedAt(c, 0, es, |es|)
    && run.pipe.sent == Delivery(c, 0, es)
  }

  lemma PassChunk(c: Config, run: Run, bytes: string, chunk: string)
    requires c.policy.Some? && PassState(c, run, bytes) && Kept(c, bytes + chunk)
    ensures var run' := PassthroughEvents(c, run.pipe, run.buffer + chunk);
            && (run'.exit == Running ==> PassState(c, run', bytes + chunk))
            && Gated(c, run'.pipe.sent, bytes + chunk)
  {
    var es, more := Events(bytes), Events(run.buffer + chunk);
    FramingResumes(bytes, chunk);
    var fed := Feed(c, run.pipe, more);
    AskedConcat(c, 0, es, more);
    FeedDelivers(c, run.pipe, more);
    if fed.stopped {
      DeliveryGated(c, fed.sent, bytes + chunk);
    } else {
      FeedKeeps(c, run.pipe, more);
      var rest := Rest(run.buffer + chunk);
      if |rest| > c.maxPolicyEventBytes {
        var judged := ApplyPolicy(c, fed, rest, rest).0;
        EmitEffect(c, judged);
        assert IsError(c, ErrorOf(c, judged.result));
        GatedBy(c, EmitPolicyError(c, judged).sent, bytes + chunk, es + more, ErrorOf(c, judged.result));
      } else {
        DeliveryGated(c, fed.sent, bytes + chunk);
      }
    }
  }

  /** With a policy set, every run of `run_passthrough` that is not trimmed is gated. */
  lemma {:induction false} PassthroughIsGated(c: Config, ticks: seq<Tick>)
    requires c.policy.Some? && Untrimmed(c, ticks)
    ensures var run := PassThrough(c, ticks);
            && (run.exit == Running ==> PassState(c, run, Bytes(ticks)))
            && Gated(c, run.pipe.sent, Bytes(ticks))
  {
    if ticks == [] {
      assert Bytes(ticks) == "" && Events("") == [];
      GatedBy(c, "", "", [], "");
    } else {
      var n := |ticks| - 1;
      var before, bytes := PassThrough(c, ticks[..n]), Bytes(ticks[..n]);
      BytesSnoc(ticks);
      UntrimmedPrefix(c, ticks, n);
      assert ticks[..|ticks|] == ticks;
      PassthroughIsGated(c, ticks[..n]);
      GatedMore(c, before.pipe.sent, bytes, BytesOf(ticks[n]));
      if before.exit == Running {
        if ticks[n].read.Data? {
          if !Ends(ticks[n], before.firstToken) { PassChunk(c, before, bytes, BytesOf(ticks[n])); }
        } else {
          assert Bytes(ticks) == bytes;
        }
      }
    }
  }

  lemma RawTurn(c: Config, run: Run, bytes: string)
    requires c.policy.None? && (forall e :: c.rules.form(e) == "") && !run.pipe.stopped
    ensures var run' := RawWrite(c, run, bytes);
            && !run'.pipe.stopped
            && run.pipe.sent <= run'.pipe.sent <= run.pipe.sent + bytes
            && (run'.exit == Running ==> run'.pipe.sent == run.pipe.sent + bytes)
  {
    WriteAllEffect(c, run.pipe, bytes);
    FeedSilent(c, WriteAll(c, run.pipe, bytes).0, Events(run.buffer + bytes));
  }

  /** Without a policy, `run_passthrough` passes the raw stream through. */
  lemma {:induction false} PassthroughIsRaw(c: Config, ticks: seq<Tick>)
    requires c.policy.None? && forall e :: c.rules.form(e) == ""
    ensures var run := PassThrough(c, ticks);
            && !run.pipe.stopped
            && run.pipe.sent <= Bytes(ticks)
            && (run.exit == Running ==> run.pipe.sent == Bytes(ticks))
  {
    if ticks != [] {
      var n := |ticks| - 1;
      var before, t := PassThrough(c, ticks[..n]), ticks[n];
      PassthroughIsRaw(c, ticks[..n]);
      BytesSnoc(ticks);
      RawTurn(c, before, BytesOf(t));
      assert Bytes(ticks[..n]) + "" == Bytes(ticks[..n]);
    }
  }

  lemma {:induction false} FeedSilent(c: Config, p: Pipe, es: seq<string>)
    requires c.policy.None? && !p.stopped && forall e :: c.rules.form(e) == ""
    ensures var q := Feed(c, p, es); !q.stopped && q.sent == p.sent
    decreases |es|
  {
    if es != [] { FeedSilent(c, OnEvent(c, p, es[0]), es[1..]); }
  }
}
