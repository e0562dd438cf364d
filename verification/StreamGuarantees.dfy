/** The stream theorems for the rules that the gateway actually runs with. */
module StreamGuarantees {
  import opened Seqs
  import opened Sse
  import opened StreamRules
  import opened StreamRulesTheorems
  import opened StreamPipe
  import opened StreamPipeTheorems
  import opened StreamPipeHonesty
  import opened StreamPipeTrimming
  import opened StreamMarks
  import opened StreamNotice

  /** Client forms of events that passed, each of the framed stream and in order, and at most one error frame. */
  ghost predicate Framed(c: Config, sent: string, bytes: string) {
    exists es, tail :: GatedWith(c, sent, bytes, es, tail) && (tail == "" || OneEvent(tail))
  }

  lemma GatedIsFramed(c: Config, route: Route, sent: string, bytes: string)
    requires Serves(c, route) && Gated(c, sent, bytes)
    ensures Framed(c, sent, bytes)
  {
    var es, tail :| GatedWith(c, sent, bytes, es, tail);
    if tail != "" {
      var code, message :| tail == c.rules.error(code, message);
      PolicyErrorIsOneEvent(route, code, message);
    }
  }

  /** Every run of `run_transform`, whatever the provider, the policy, the client and the clock do. */
  lemma TransformGuarantees(c: Config, route: Route, ticks: seq<Tick>)
    requires Serves(c, route)
    ensures var run := Transform(c, ticks);
            && Framed(c, run.pipe.sent, Bytes(ticks))
            && RunHonest(run)
            && (run.pipe.result.marks.terminalEventSeen ==> SeenIn(e => Terminal(route, e), Bytes(ticks)))
  {
    TransformIsGated(c, ticks);
    GatedIsFramed(c, route, Transform(c, ticks).pipe.sent, Bytes(ticks));
    ObserveIsHonest(route, c.policy.Some?);
    TransformIsHonest(c, e => Terminal(route, e), ticks);
    TerminalWasSent(c, e => Terminal(route, e), ticks);
  }

  // ---- run_passthrough ----

  /** A list of events is marked as terminal exactly when one of them is. */
  lemma {:induction false} ObservingTerminal(rules: Rules, terminal: string -> bool, es: seq<string>)
    requires Honest(rules, terminal)
    ensures Observing(rules, es).terminalEventSeen <==> exists e :: e in es && terminal(e)
  {
    if es != [] {
      var n := |es| - 1;
      ObservingTerminal(rules, terminal, es[..n]);
      assert forall e | e in es :: e in es[..n] || e == es[n];
      assert es[n] in es;
      assert Observed(Observing(rules, es[..n]), Observing(rules, es), terminal(es[n]));
    }
  }

  /** Any run, trimmed or not: the terminal flag needs a terminal event among those it noticed. */
  lemma NoticedTerminal(c: Config, terminal: string -> bool, ticks: seq<Tick>)
    requires Honest(c.rules, terminal) && PassThrough(c, ticks).pipe.result.marks.terminalEventSeen
    ensures exists e :: e in Noticed(c, ticks) && terminal(e)
  {
    var n := NoticedMarks(c, ticks);
    ObservingTerminal(c.rules, terminal, Noticed(c, ticks)[..n]);
    var e :| e in Noticed(c, ticks)[..n] && terminal(e);
    assert e in Noticed(c, ticks);
  }

  /** A run that is not trimmed: the terminal flag needs a terminal event in the framed stream. */
  lemma PassedTerminal(c: Config, terminal: string -> bool, ticks: seq<Tick>)
    requires Honest(c.rules, terminal) && Untrimmed(c, ticks)
    requires PassThrough(c, ticks).pipe.result.marks.terminalEventSeen
    ensures SeenIn(terminal, Bytes(ticks))
  {
    var m, n := PassthroughMarks(c, ticks);
    var es := Events(Bytes(ticks));
    ObservingTerminal(c.rules, terminal, es[..n]);
    var e :| e in es[..n] && terminal(e);
    assert e in es;
  }

  /** Every run of `run_passthrough` with a policy that is not trimmed. */
  lemma PassthroughGuarantees(c: Config, route: Route, ticks: seq<Tick>)
    requires Serves(c, route) && c.policy.Some? && Untrimmed(c, ticks)
    ensures var run, terminal := PassThrough(c, ticks), (e: string) => Terminal(route, e);
            && Framed(c, run.pipe.sent, Bytes(ticks))
            && RunHonest(run)
            && (run.pipe.result.marks.terminalEventSeen ==> SeenIn(terminal, Bytes(ticks)))
            && (Silent(run) <==> exists i :: 0 <= i < |ticks| && SilentAt(c, terminal, ticks, i))
  {
    var run, terminal := PassThrough(c, ticks), (e: string) => Terminal(route, e);
    PassthroughIsGated(c, ticks);
    GatedIsFramed(c, route, run.pipe.sent, Bytes(ticks));
    ObserveIsHonest(route, true);
    PassthroughIsHonest(c, terminal, ticks);
    SilentExactly(c, terminal, ticks);
    if run.pipe.result.marks.terminalEventSeen { PassedTerminal(c, terminal, ticks); }
  }

  /** Every run of `run_passthrough` without a policy: the raw stream, and marks of the framed one if not trimmed. */
  lemma RawGuarantees(c: Config, route: Route, ticks: seq<Tick>)
    requires Serves(c, route) && route.mode == Passthrough && c.policy.None?
    ensures var run, terminal := PassThrough(c, ticks), (e: string) => Terminal(route, e);
            && run.pipe.sent <= Bytes(ticks)
            && (run.exit == Running ==> run.pipe.sent == Bytes(ticks))
            && RunHonest(run)
            && (run.pipe.result.marks.terminalEventSeen && Untrimmed(c, ticks) ==> SeenIn(terminal, Bytes(ticks)))
            && (Silent(run) <==> exists i :: 0 <= i < |ticks| && SilentAt(c, terminal, ticks, i))
  {
    var run, terminal := PassThrough(c, ticks), (e: string) => Terminal(route, e);
    PassthroughIsRaw(c, ticks);
    ObserveIsHonest(route, false);
    PassthroughIsHonest(c, terminal, ticks);
    SilentExactly(c, terminal, ticks);
    if run.pipe.result.marks.terminalEventSeen && Untrimmed(c, ticks) { PassedTerminal(c, terminal, ticks); }
  }

  // ---- Both guards are met ----

  const SILENCE: Tick := Tick(Stalled, false, false, false, true)

  /** A keepalive to a client that is gone makes an empty stream complete. */
  lemma KeepaliveSilence(c: Config, route: Route)
    requires Serves(c, route) && c.injectKeepalive && c.accepts(0) <= 0
    ensures Silent(PassThrough(c, [SILENCE])) && Bytes([SILENCE]) == ""
  {
    var terminal := (e: string) => Terminal(route, e);
    ObserveIsHonest(route, c.policy.Some?);
    assert [SILENCE][..0] == [];
    assert SilentAt(c, terminal, [SILENCE], 0);
    SilentExactly(c, terminal, [SILENCE]);
    BytesSnoc([SILENCE]);
  }

  const MARKER: string := "data: [DONE]"

  /** The end marker without its blank line, and then more and more of the same line. */
  function Swollen(n: nat): string {
    MARKER + Line(n)
  }

  function Swelling(n: nat): seq<Tick> {
    [DataTick(MARKER)] + Drip(Line(n))
  }

  lemma SwollenOpen(n: nat)
    ensures Events(Swollen(n)) == [] && Rest(Swollen(n)) == Swollen(n)
    ensures Contains(Swollen(n), MARKER)
  {
    var s := Swollen(n);
    assert forall i | 0 <= i < |s| :: s[i] != '\n';
    CutIsFirstEvent(s);
    assert OccursAt(s, MARKER, 0);
  }

  lemma SwellingSnoc(n: nat)
    ensures Swelling(n + 1) == Swelling(n) + [DripTick('a')] && Swollen(n) + "a" == Swollen(n + 1)
  {
    assert Line(n + 1) == Line(n) + "a";
    assert Drip(Line(n + 1)) == Drip(Line(n)) + [DripTick('a')];
  }

  /** Within the policy limit the unfinished line is just kept. */
  lemma {:induction false} SwellingKept(c: Config, n: nat)
    requires NoTrim(c) && |MARKER| + n <= c.maxPolicyEventBytes
    ensures PassThrough(c, Swelling(n)) == Run(Start, Swollen(n), true, Running)
  {
    SwollenOpen(n);
    if n == 0 {
      assert Swelling(0) == [DataTick(MARKER)] && [DataTick(MARKER)][..0] == [] && "" + MARKER == Swollen(0);
    } else {
      SwellingKept(c, n - 1);
      SwellingSnoc(n - 1);
      assert (Swelling(n - 1) + [DripTick('a')])[..n] == Swelling(n - 1);
    }
  }

  lemma SwellingBytes(c: Config, n: nat)
    requires |MARKER| <= c.readBufSize
    ensures Bytes(Swelling(n)) == Swollen(n) && Readable(c, Swelling(n))
  {
    DripBytes(Line(n));
    assert Map(BytesOf, Swelling(n)) == [MARKER] + Map(BytesOf, Drip(Line(n)));
    FlattenConcat([MARKER], Map(BytesOf, Drip(Line(n))));
    FlattenOne(MARKER);
  }

  /** The byte that takes the line over the limit. */
  lemma OneTooMany(c: Config, route: Route, terminal: string -> bool, run: Run, n: nat)
    requires Serves(c, route) && c.policy.Some? && |MARKER| + n == c.maxPolicyEventBytes
    requires run == Run(Start, Swollen(n), true, Running)
    ensures ExemptOverflows(c, terminal, run, DripTick('a'))
  {
    SwellingSnoc(n);
    SwollenOpen(n + 1);
    var buffer := run.buffer + "a";
    assert buffer == Swollen(n + 1) && Feed(c, run.pipe, []) == Start;
  }

  lemma SwellingOverflows(c: Config, route: Route, terminal: string -> bool, n: nat)
    requires Serves(c, route) && NoTrim(c) && |MARKER| + n == c.maxPolicyEventBytes
    ensures SilentAt(c, terminal, Swelling(n + 1), n + 1)
  {
    SwellingKept(c, n);
    SwellingSnoc(n);
    assert (Swelling(n) + [DripTick('a')])[..n + 1] == Swelling(n);
    OneTooMany(c, route, terminal, PassThrough(c, Swelling(n)), n);
  }

  /** A stream that never ends its last line is complete once that line is over the policy limit. */
  lemma OverflowSilence(c: Config, route: Route)
    requires Serves(c, route) && NoTrim(c) && |MARKER| <= c.readBufSize && |MARKER| <= c.maxPolicyEventBytes
    ensures var ticks := Swelling(c.maxPolicyEventBytes + 1 - |MARKER|);
            Readable(c, ticks) && Silent(PassThrough(c, ticks)) && Events(Bytes(ticks)) == []
  {
    var n := c.maxPolicyEventBytes - |MARKER|;
    var terminal := (e: string) => Terminal(route, e);
    ObserveIsHonest(route, true);
    SwellingOverflows(c, route, terminal, n);
    SilentExactly(c, terminal, Swelling(n + 1));
    SwellingBytes(c, n + 1);
    SwollenOpen(n + 1);
  }
}
