/** Stream completion is honest: what the result flags of a finished run mean. */
module StreamPipeHonesty {
  import opened Seqs
  import opened Sse
  import opened StreamRules
  import opened StreamPipe
  import opened StreamPipeTheorems

  /** Nothing has gone wrong yet. */
  predicate Clean(r: StreamResult) {
    !r.incomplete && !r.policyBlocked && !r.policyFailedClosed
  }

  /** The policy flags are exclusive and each implies incompleteness. */
  predicate FlagsSound(r: StreamResult) {
    && !(r.policyBlocked && r.policyFailedClosed)
    && (r.policyBlocked || r.policyFailedClosed ==> r.incomplete)
  }

  predicate Grown(a: StreamResult, b: StreamResult) {
    MarksGrown(a.marks, b.marks) && a.bytesForwarded <= b.bytesForwarded
  }

  predicate MarksGrown(a: Marks, b: Marks) {
    && a.inputTokens <= b.inputTokens && a.outputTokens <= b.outputTokens
    && a.cacheCreateTokens <= b.cacheCreateTokens && a.cacheReadTokens <= b.cacheReadTokens
    && a.reasoningTokens <= b.reasoningTokens
    && (a.terminalEventSeen ==> b.terminalEventSeen)
  }

  /** What a step from a clean pipe may leave behind. */
  predicate StepHonest(p: Pipe, q: Pipe) {
    && Grown(p.result, q.result)
    && FlagsSound(q.result)
    && (!q.stopped ==> Clean(q.result))
    && (q.stopped && !q.result.incomplete ==> q.result.marks.terminalEventSeen)
  }

  /** Only the byte count and the disconnect flag differ. */
  predicate SameVerdict(a: StreamResult, b: StreamResult) {
    && a.incomplete == b.incomplete && a.policyBlocked == b.policyBlocked
    && a.policyFailedClosed == b.policyFailedClosed && a.marks == b.marks
  }

  lemma WriteKeepsVerdict(c: Config, p: Pipe, data: string)
    ensures var q := WriteAll(c, p, data).0;
            SameVerdict(p.result, q.result) && Grown(p.result, q.result) && q.stopped == p.stopped
  {
    WriteAllEffect(c, p, data);
  }

  lemma PolicyVerdict(c: Config, p: Pipe, e: string, form: string)
    requires Clean(p.result)
    ensures var (q, ok) := ApplyPolicy(c, p, e, form);
            && Grown(p.result, q.result) && FlagsSound(q.result) && q.stopped == p.stopped
            && q.result.marks.terminalEventSeen == p.result.marks.terminalEventSeen
            && (if ok then Clean(q.result) else q.result.incomplete)
  {
  }

  lemma OnEventHonest(c: Config, terminal: string -> bool, p: Pipe, e: string)
    requires Honest(c.rules, terminal) && !p.stopped && Clean(p.result)
    ensures var q := OnEvent(c, p, e);
            && StepHonest(p, q)
            && q.result.marks.terminalEventSeen == (p.result.marks.terminalEventSeen || terminal(e))
  {
    var seen := p.(result := p.result.(marks := c.rules.observe(p.result.marks, e)));
    assert Observed(p.result.marks, seen.result.marks, terminal(e));
    PolicyVerdict(c, seen, e, c.rules.form(e));
    var (judged, ok) := ApplyPolicy(c, seen, e, c.rules.form(e));
    if ok {
      WriteKeepsVerdict(c, judged, c.rules.form(e));
    } else {
      WriteKeepsVerdict(c, judged, ErrorOf(c, judged.result));
    }
  }

  lemma {:induction false} FeedHonest(c: Config, terminal: string -> bool, p: Pipe, es: seq<string>)
    requires Honest(c.rules, terminal) && !p.stopped && Clean(p.result)
    ensures var q := Feed(c, p, es);
            && StepHonest(p, q)
            && (q.result.marks.terminalEventSeen ==> p.result.marks.terminalEventSeen || exists e :: e in es && terminal(e))
            && (!q.stopped ==> forall e | e in es && terminal(e) :: q.result.marks.terminalEventSeen)
    decreases |es|
  {
    if es != [] {
      var q := OnEvent(c, p, es[0]);
      OnEventHonest(c, terminal, p, es[0]);
      if !q.stopped {
        FeedHonest(c, terminal, q, es[1..]);
        forall e | e in es ensures e == es[0] || e in es[1..] {}
      }
      assert terminal(es[0]) ==> es[0] in es && terminal(es[0]);
    }
  }

  predicate RunHonest(run: Run) {
    && FlagsSound(run.pipe.result)
    && Grown(FreshResult, run.pipe.result)
    && (run.exit == Running ==> !run.pipe.stopped && Clean(run.pipe.result))
    && ((run.exit == Ended || run.exit == Stopped) && !run.pipe.result.incomplete ==>
          run.pipe.result.marks.terminalEventSeen)
  }

  lemma ClosedHonest(run: Run, t: Tick)
    requires run.exit == Running && RunHonest(run) && Ends(t, run.firstToken)
    ensures RunHonest(Finished(run, t)) && Grown(run.pipe.result, Finished(run, t).pipe.result)
  {
  }

  lemma FedHonest(p: Pipe, q: Pipe, buffer: string, exit: Exit)
    requires Grown(FreshResult, p.result) && StepHonest(p, q) && exit == if q.stopped then Stopped else Running
    ensures RunHonest(Run(q, buffer, true, exit))
  {
  }

  lemma TransformTurnHonest(c: Config, terminal: string -> bool, run: Run, t: Tick)
    requires Honest(c.rules, terminal) && RunHonest(run)
    requires run.exit == Running || run.exit == Ended || run.exit == Stopped
    ensures var run' := TransformTurn(c, run, t);
            && RunHonest(run') && Grown(run.pipe.result, run'.pipe.result)
            && (run'.exit == Running || run'.exit == Ended || run'.exit == Stopped)
  {
    if run.exit == Running {
      if Ends(t, run.firstToken) {
        ClosedHonest(run, t);
      } else if t.read.Data? {
        var buffer := run.buffer + t.read.bytes;
        FeedHonest(c, terminal, run.pipe, Events(buffer));
        var q := Feed(c, run.pipe, Events(buffer));
        FedHonest(run.pipe, q, TransformTurn(c, run, t).buffer, TransformTurn(c, run, t).exit);
      }
    }
  }

  /**
   * Every return of `run_transform` that does not report an incomplete stream has seen a terminal
   * event, the policy flags are sound, and the counters are non-negative.
   */
  lemma {:induction false} TransformIsHonest(c: Config, terminal: string -> bool, ticks: seq<Tick>)
    requires Honest(c.rules, terminal)
    ensures var run := Transform(c, ticks);
            && RunHonest(run)
            && (run.exit == Running || run.exit == Ended || run.exit == Stopped)
  {
    if ticks != [] {
      var n := |ticks| - 1;
      TransformIsHonest(c, terminal, ticks[..n]);
      TransformTurnHonest(c, terminal, Transform(c, ticks[..n]), ticks[n]);
    }
  }

  /** The counters only grow as a run goes on. */
  lemma {:induction false} TransformGrows(c: Config, terminal: string -> bool, ticks: seq<Tick>, n: nat)
    requires Honest(c.rules, terminal) && n <= |ticks|
    ensures Grown(Transform(c, ticks[..n]).pipe.result, Transform(c, ticks).pipe.result)
    decreases |ticks|
  {
    if n == |ticks| {
      assert ticks[..n] == ticks;
    } else {
      var m := |ticks| - 1;
      assert ticks[..m][..n] == ticks[..n];
      TransformGrows(c, terminal, ticks[..m], n);
      TransformIsHonest(c, terminal, ticks[..m]);
      TransformTurnHonest(c, terminal, Transform(c, ticks[..m]), ticks[m]);
    }
  }

  ghost predicate SeenIn(terminal: string -> bool, bytes: string) {
    exists e :: e in Events(bytes) && terminal(e)
  }

  /** `terminal_event_seen` is never set without a terminal event in the framed stream. */
  lemma {:induction false} TerminalWasSent(c: Config, terminal: string -> bool, ticks: seq<Tick>)
    requires Honest(c.rules, terminal)
    ensures Transform(c, ticks).pipe.result.marks.terminalEventSeen ==> SeenIn(terminal, Bytes(ticks))
  {
    if ticks != [] {
      var n := |ticks| - 1;
      var before, bytes, t := Transform(c, ticks[..n]), Bytes(ticks[..n]), ticks[n];
      TerminalWasSent(c, terminal, ticks[..n]);
      TransformIsHonest(c, terminal, ticks[..n]);
      TransformFramesOnce(c, ticks[..n]);
      BytesSnoc(ticks);
      FramingResumes(bytes, BytesOf(t));
      if before.exit == Running && !Ends(t, before.firstToken) && t.read.Data? {
        FeedHonest(c, terminal, before.pipe, Events(before.buffer + BytesOf(t)));
      }
    }
  }

  // ---- run_passthrough ----

  /** The run has ended, reports a complete stream, and has seen no terminal event. */
  predicate Silent(run: Run) {
    run.exit != Running && !run.pipe.result.incomplete && !run.pipe.result.marks.terminalEventSeen
  }

  /** The turn sends a keepalive comment to a client that is gone. */
  predicate KeepaliveFails(c: Config, run: Run, t: Tick) {
    && t.read.Stalled? && !Ends(t, run.firstToken)
    && c.injectKeepalive && t.silent && c.accepts(run.pipe.writes) <= 0
  }

  /** The turn's data, no event of which stops the run or ends the stream, leaves an exempt remainder over the limit. */
  ghost predicate ExemptOverflows(c: Config, terminal: string -> bool, run: Run, t: Tick) {
    && t.read.Data? && !t.overTotal && c.policy.Some?
    && var buffer := run.buffer + t.read.bytes;
       && !Feed(c, run.pipe, Events(buffer)).stopped
       && (forall e | e in Events(buffer) :: !terminal(e))
       && |Rest(buffer)| > c.maxPolicyEventBytes && c.rules.exempt(Rest(buffer))
  }

  lemma EventsHonest(c: Config, terminal: string -> bool, p: Pipe, buffer: string)
    requires Honest(c.rules, terminal) && !p.stopped && Clean(p.result)
    requires Grown(FreshResult, p.result)
    ensures var run := PassthroughEvents(c, p, buffer);
            RunHonest(run) && Grown(p.result, run.pipe.result)
  {
    var fed, rest := Feed(c, p, Events(buffer)), Rest(buffer);
    FeedHonest(c, terminal, p, Events(buffer));
    if fed.stopped {
      FedHonest(p, fed, buffer, Stopped);
    } else {
      FedHonest(p, fed, Trim(c, rest), Running);
      PolicyVerdict(c, fed, rest, rest);
      var judged := ApplyPolicy(c, fed, rest, rest).0;
      WriteKeepsVerdict(c, judged, ErrorOf(c, judged.result));
    }
  }

  /** What an oversized remainder leaves behind: incomplete unless it is exempt. */
  lemma OverflowVerdict(c: Config, p: Pipe, rest: string)
    requires c.policy.Some? && Clean(p.result) && |rest| > c.maxPolicyEventBytes
    ensures var q := EmitPolicyError(c, ApplyPolicy(c, p, rest, rest).0);
            && q.result.marks == p.result.marks
            && (q.result.incomplete <==> !c.rules.exempt(rest))
  {
    var judged := ApplyPolicy(c, p, rest, rest).0;
    assert judged.result.incomplete <==> !c.rules.exempt(rest);
    WriteKeepsVerdict(c, judged, ErrorOf(c, judged.result));
  }

  lemma RawWriteHonest(c: Config, terminal: string -> bool, run: Run, bytes: string)
    requires Honest(c.rules, terminal) && RunHonest(run) && run.exit == Running && c.policy.None?
    ensures var run' := RawWrite(c, run, bytes);
            RunHonest(run') && Grown(run.pipe.result, run'.pipe.result) && !Silent(run')
  {
    WriteKeepsVerdict(c, run.pipe, bytes);
    var (wrote, ok) := WriteAll(c, run.pipe, bytes);
    if ok { EventsHonest(c, terminal, wrote, run.buffer + bytes); }
  }

  lemma PassthroughTurnHonest(c: Config, terminal: string -> bool, run: Run, t: Tick)
    requires Honest(c.rules, terminal) && RunHonest(run)
    ensures var run' := PassthroughTurn(c, run, t);
            RunHonest(run') && Grown(run.pipe.result, run'.pipe.result)
  {
    if run.exit == Running {
      if Ends(t, run.firstToken) {
        ClosedHonest(run, t);
      } else if t.read.Data? {
        if c.policy.Some? {
          EventsHonest(c, terminal, run.pipe, run.buffer + t.read.bytes);
        } else {
          RawWriteHonest(c, terminal, run, t.read.bytes);
        }
      }
    }
  }

  /** `run_passthrough` is as honest as `run_transform`, except on the two exits that only it has. */
  lemma {:induction false} PassthroughIsHonest(c: Config, terminal: string -> bool, ticks: seq<Tick>)
    requires Honest(c.rules, terminal)
    ensures RunHonest(PassThrough(c, ticks))
  {
    if ticks != [] {
      var n := |ticks| - 1;
      PassthroughIsHonest(c, terminal, ticks[..n]);
      PassthroughTurnHonest(c, terminal, PassThrough(c, ticks[..n]), ticks[n]);
    }
  }

  lemma SilentData(c: Config, terminal: string -> bool, run: Run, t: Tick)
    requires Honest(c.rules, terminal) && RunHonest(run) && run.exit == Running
    requires t.read.Data? && !Ends(t, run.firstToken) && c.policy.Some?
    ensures Silent(PassthroughTurn(c, run, t)) <==>
            !run.pipe.result.marks.terminalEventSeen && ExemptOverflows(c, terminal, run, t)
  {
    var buffer := run.buffer + t.read.bytes;
    var fed, rest := Feed(c, run.pipe, Events(buffer)), Rest(buffer);
    FeedHonest(c, terminal, run.pipe, Events(buffer));
    if !fed.stopped && |rest| > c.maxPolicyEventBytes { OverflowVerdict(c, fed, rest); }
  }

  /** A turn ends the run silently exactly when no terminal event was seen and one of two guards holds. */
  lemma SilentTurn(c: Config, terminal: string -> bool, run: Run, t: Tick)
    requires Honest(c.rules, terminal) && RunHonest(run) && run.exit == Running
    ensures Silent(PassthroughTurn(c, run, t)) <==>
            && !run.pipe.result.marks.terminalEventSeen
            && (KeepaliveFails(c, run, t) || ExemptOverflows(c, terminal, run, t))
  {
    if Ends(t, run.firstToken) {
      ClosedHonest(run, t);
    } else if t.read.Data? {
      if c.policy.Some? { SilentData(c, terminal, run, t); } else { RawWriteHonest(c, terminal, run, t.read.bytes); }
    }
  }

  /** The run is on and clean before the turn, which then ends it by one of the two guards. */
  ghost predicate SilentAt(c: Config, terminal: string -> bool, ticks: seq<Tick>, i: nat)
    requires i < |ticks|
  {
    var run := PassThrough(c, ticks[..i]);
    && run.exit == Running && !run.pipe.result.marks.terminalEventSeen
    && (KeepaliveFails(c, run, ticks[i]) || ExemptOverflows(c, terminal, run, ticks[i]))
  }

  /** A turn that meets a guard silences the whole run. */
  lemma SilentSince(c: Config, terminal: string -> bool, ticks: seq<Tick>, i: nat)
    requires Honest(c.rules, terminal) && i < |ticks| && SilentAt(c, terminal, ticks, i)
    ensures Silent(PassThrough(c, ticks))
  {
    PassthroughIsHonest(c, terminal, ticks[..i]);
    SilentTurn(c, terminal, PassThrough(c, ticks[..i]), ticks[i]);
    assert ticks[..i + 1][..i] == ticks[..i];
    PassThroughStays(c, ticks, i + 1);
  }

  /** A silent run has a turn that met a guard. */
  lemma {:induction false} SilencedBy(c: Config, terminal: string -> bool, ticks: seq<Tick>) returns (i: nat)
    requires Honest(c.rules, terminal) && Silent(PassThrough(c, ticks))
    ensures i < |ticks| && SilentAt(c, terminal, ticks, i)
  {
    i := |ticks| - 1;
    var before := PassThrough(c, ticks[..i]);
    if before.exit == Running {
      PassthroughIsHonest(c, terminal, ticks[..i]);
      SilentTurn(c, terminal, before, ticks[i]);
    } else {
      var n := i;
      i := SilencedBy(c, terminal, ticks[..n]);
      assert ticks[..n][..i] == ticks[..i];
    }
  }

  /**
   * Every run of `run_passthrough`: it reports a complete stream without a terminal event if and
   * only if some turn of it fails a keepalive or leaves an exempt remainder over the policy limit.
   */
  lemma SilentExactly(c: Config, terminal: string -> bool, ticks: seq<Tick>)
    requires Honest(c.rules, terminal)
    ensures Silent(PassThrough(c, ticks)) <==> exists i :: 0 <= i < |ticks| && SilentAt(c, terminal, ticks, i)
  {
    if Silent(PassThrough(c, ticks)) {
      var i := SilencedBy(c, terminal, ticks);
    }
    if i :| 0 <= i < |ticks| && SilentAt(c, terminal, ticks, i) {
      SilentSince(c, terminal, ticks, i);
    }
  }
}
