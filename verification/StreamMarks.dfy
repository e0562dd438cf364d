/**
 * What the usage counters, the malformed mark and the terminal mark of a run are made of: a run
 * leaves them as observing its events one by one does, whatever it delivered and however it ended.
 */
module StreamMarks {
  import opened Seqs
  import opened Sse
  import opened StreamRules
  import opened StreamPipe
  import opened StreamPipeTheorems

  /** The marks of a list of events. */
  function Observing(rules: Rules, es: seq<string>): Marks {
    if es == [] then NoMarks else rules.observe(Observing(rules, es[..|es| - 1]), es[|es| - 1])
  }

  /** Writing, gating and refusing move none of the marks. */
  lemma OnEventMarks(c: Config, p: Pipe, e: string)
    ensures OnEvent(c, p, e).result.marks == c.rules.observe(p.result.marks, e)
  {
    var seen := p.(result := p.result.(marks := c.rules.observe(p.result.marks, e)));
    var (judged, ok) := ApplyPolicy(c, seen, e, c.rules.form(e));
    WriteAllEffect(c, judged, c.rules.form(e));
    EmitMarks(c, judged);
  }

  lemma EmitMarks(c: Config, p: Pipe)
    ensures EmitPolicyError(c, p).result.marks == p.result.marks
  {
    WriteAllEffect(c, p, ErrorOf(c, p.result));
  }

  /** Feeding events marks a leading run of them, all of them unless the pipe stops. */
  lemma {:induction false} FeedMarks(c: Config, p: Pipe, seen: seq<string>, es: seq<string>) returns (n: nat)
    requires !p.stopped && p.result.marks == Observing(c.rules, seen)
    ensures |seen| <= n <= |seen + es|
    ensures Feed(c, p, es).result.marks == Observing(c.rules, (seen + es)[..n])
    ensures !Feed(c, p, es).stopped ==> n == |seen + es|
    decreases |es|
  {
    n := |seen|;
    assert (seen + es)[..n] == seen;
    if es != [] {
      var q, seen' := OnEvent(c, p, es[0]), seen + [es[0]];
      OnEventMarks(c, p, es[0]);
      assert seen'[..|seen|] == seen;
      n := |seen'|;
      assert (seen + es)[..n] == seen';
      if !q.stopped {
        n := FeedMarks(c, q, seen', es[1..]);
        assert seen' + es[1..] == seen + es;
      }
    }
  }

  // ---- run_transform ----

  /** A transform that still runs has marked every event so far. */
  lemma RunningMarks(c: Config, ticks: seq<Tick>)
    requires Transform(c, ticks).exit == Running
    ensures Transform(c, ticks).pipe.result.marks == Observing(c.rules, Events(Bytes(ticks)))
  {
    TransformFramesOnce(c, ticks);
    var es := Events(Bytes(ticks));
    var n := FeedMarks(c, Start, [], es);
    assert ([] + es)[..n] == es;
  }

  /** The run of these ticks was still on after `m` of them, and the next one, if any, ended it. */
  predicate TransformLasts(c: Config, ticks: seq<Tick>, m: nat) {
    && m <= |ticks|
    && Transform(c, ticks[..m]).exit == Running
    && (m == |ticks| <==> Transform(c, ticks).exit == Running)
    && (m < |ticks| ==> Transform(c, ticks) == TransformTurn(c, Transform(c, ticks[..m]), ticks[m]))
  }

  lemma {:induction false} TransformLength(c: Config, ticks: seq<Tick>) returns (m: nat)
    ensures TransformLasts(c, ticks, m)
  {
    m := |ticks|;
    assert ticks[..m] == ticks;
    if Transform(c, ticks).exit != Running {
      if Transform(c, ticks[..m - 1]).exit == Running {
        m := m - 1;
      } else {
        m := TransformLength(c, ticks[..m - 1]);
        assert ticks[..|ticks| - 1][..m] == ticks[..m];
      }
    }
  }

  /** The next turn's bytes come right after those of the first `m` turns. */
  lemma BytesAt(ticks: seq<Tick>, m: nat)
    requires m < |ticks|
    ensures Bytes(ticks[..m + 1]) == Bytes(ticks[..m]) + BytesOf(ticks[m])
    ensures Events(Bytes(ticks[..m + 1])) <= Events(Bytes(ticks))
  {
    BytesSnoc(ticks[..m + 1]);
    assert ticks[..m + 1][..m] == ticks[..m];
    var rest := ticks[m + 1..];
    assert Map(BytesOf, ticks) == Map(BytesOf, ticks[..m + 1]) + Map(BytesOf, rest);
    FlattenConcat(Map(BytesOf, ticks[..m + 1]), Map(BytesOf, rest));
    MoreBytes(Bytes(ticks[..m + 1]), Bytes(rest));
  }

  lemma ClosedMarks(r: StreamResult, t: Tick)
    ensures Close(r, t).marks == r.marks
  {
  }

  /** The turn that ends a run marks no event, or a leading run of those it completes. */
  lemma LastTurnMarks(c: Config, run: Run, t: Tick, es: seq<string>, more: seq<string>) returns (n: nat)
    requires run.exit == Running && !run.pipe.stopped && run.pipe.result.marks == Observing(c.rules, es)
    requires more == Events(run.buffer + BytesOf(t))
    ensures |es| <= n <= |es + more|
    ensures TransformTurn(c, run, t).pipe.result.marks == Observing(c.rules, (es + more)[..n])
    ensures TransformTurn(c, run, t).exit == Ended ==> n == |es|
    ensures TransformTurn(c, run, t).exit != KeepaliveFailed && TransformTurn(c, run, t).exit != Oversized
  {
    n := |es|;
    assert (es + more)[..n] == es;
    if Ends(t, run.firstToken) {
      ClosedMarks(run.pipe.result, t);
    } else if t.read.Data? {
      n := FeedMarks(c, run.pipe, es, more);
    }
  }

  lemma TakePrefix<T>(a: seq<T>, b: seq<T>, n: nat)
    requires a <= b && n <= |a|
    ensures n <= |b| && a[..n] == b[..n]
  {
  }

  /**
   * Every run of `run_transform`, finished or not: its marks are those of a leading run of the
   * framed events, and of all that were read before it ended unless an event stopped it.
   */
  lemma TransformMarks(c: Config, ticks: seq<Tick>) returns (m: nat, n: nat)
    ensures TransformLasts(c, ticks, m)
    ensures |Events(Bytes(ticks[..m]))| <= n <= |Events(Bytes(ticks))|
    ensures Transform(c, ticks).pipe.result.marks == Observing(c.rules, Events(Bytes(ticks))[..n])
    ensures Transform(c, ticks).exit != Stopped ==> n == |Events(Bytes(ticks[..m]))|
  {
    m := TransformLength(c, ticks);
    var run, es := Transform(c, ticks[..m]), Events(Bytes(ticks[..m]));
    RunningMarks(c, ticks[..m]);
    if m == |ticks| {
      assert ticks[..m] == ticks;
      n := |es|;
      assert es[..n] == es;
    } else {
      TransformFramesOnce(c, ticks[..m]);
      FramingResumes(Bytes(ticks[..m]), BytesOf(ticks[m]));
      var more := Events(run.buffer + BytesOf(ticks[m]));
      n := LastTurnMarks(c, run, ticks[m], es, more);
      BytesAt(ticks, m);
      TakePrefix(es + more, Events(Bytes(ticks)), n);
    }
  }
}
