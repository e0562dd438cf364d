/**
 * What `run_passthrough` notices of the stream it passes on: the events whose usage and terminal
 * marks it takes, and exactly when they are the events of the framed stream.
 */
module StreamNotice {
  import opened Seqs
  import opened Sse
  import opened StreamRules
  import opened StreamPipe
  import opened StreamPipeTheorems
  import opened StreamMarks

  /** The data of the turn is framed: without a policy, only after it was passed on. */
  predicate Frames(c: Config, run: Run, t: Tick) {
    && run.exit == Running && !Ends(t, run.firstToken) && t.read.Data?
    && (c.policy.Some? || WriteAll(c, run.pipe, t.read.bytes).1)
  }

  function NewEvents(c: Config, run: Run, t: Tick): seq<string> {
    if Frames(c, run, t) then Events(run.buffer + t.read.bytes) else []
  }

  /** The events that a run frames. */
  function Noticed(c: Config, ticks: seq<Tick>): seq<string> {
    if ticks == [] then []
    else
      var n := |ticks| - 1;
      Noticed(c, ticks[..n]) + NewEvents(c, PassThrough(c, ticks[..n]), ticks[n])
  }

  // ---- Marks ----

  /** The run has the marks of `n` of these events, and of all of them unless one stopped it. */
  ghost predicate Took(c: Config, run: Run, all: seq<string>, n: nat) {
    && n <= |all|
    && run.pipe.result.marks == Observing(c.rules, all[..n])
    && (run.exit != Stopped ==> n == |all|)
    && (run.exit == Running ==> !run.pipe.stopped)
  }

  lemma TookAll(c: Config, run: Run, all: seq<string>)
    requires run.pipe.result.marks == Observing(c.rules, all) && (run.exit == Running ==> !run.pipe.stopped)
    ensures Took(c, run, all, |all|)
  {
    assert all[..|all|] == all;
  }

  lemma EventsMarks(c: Config, p: Pipe, buffer: string, es: seq<string>) returns (n: nat)
    requires !p.stopped && p.result.marks == Observing(c.rules, es)
    ensures |es| <= n && Took(c, PassthroughEvents(c, p, buffer), es + Events(buffer), n)
  {
    n := FeedMarks(c, p, es, Events(buffer));
    var fed, rest := Feed(c, p, Events(buffer)), Rest(buffer);
    EmitMarks(c, ApplyPolicy(c, fed, rest, rest).0);
  }

  lemma RawMarks(c: Config, run: Run, bytes: string, es: seq<string>) returns (n: nat)
    requires !run.pipe.stopped && run.pipe.result.marks == Observing(c.rules, es)
    ensures var more := if WriteAll(c, run.pipe, bytes).1 then Events(run.buffer + bytes) else [];
            |es| <= n && Took(c, RawWrite(c, run, bytes), es + more, n)
  {
    WriteAllEffect(c, run.pipe, bytes);
    var (wrote, ok) := WriteAll(c, run.pipe, bytes);
    if ok {
      n := EventsMarks(c, wrote, run.buffer + bytes, es);
    } else {
      n := |es|;
      assert es + [] == es;
      TookAll(c, RawWrite(c, run, bytes), es);
    }
  }

  /** One turn marks a leading run of the events it frames, all of them unless one stops the run. */
  lemma TurnMarks(c: Config, run: Run, t: Tick, es: seq<string>) returns (n: nat)
    requires run.exit == Running && !run.pipe.stopped && run.pipe.result.marks == Observing(c.rules, es)
    ensures |es| <= n && Took(c, PassthroughTurn(c, run, t), es + NewEvents(c, run, t), n)
  {
    if !Ends(t, run.firstToken) && t.read.Data? {
      if c.policy.Some? {
        n := EventsMarks(c, run.pipe, run.buffer + t.read.bytes, es);
      } else {
        n := RawMarks(c, run, t.read.bytes, es);
      }
    } else {
      n := |es|;
      assert es + [] == es;
      ClosedMarks(run.pipe.result, t);
      TookAll(c, PassthroughTurn(c, run, t), es);
    }
  }

  /** The marks of any run, trimmed or not, are those of the events it noticed up to one that stopped it. */
  lemma {:induction false} NoticedMarks(c: Config, ticks: seq<Tick>) returns (n: nat)
    ensures Took(c, PassThrough(c, ticks), Noticed(c, ticks), n)
  {
    n := 0;
    if ticks != [] {
      var k := |ticks| - 1;
      n := NoticedMarks(c, ticks[..k]);
      var es := Noticed(c, ticks[..k]);
      if PassThrough(c, ticks[..k]).exit == Running {
        assert es[..n] == es;
        n := TurnMarks(c, PassThrough(c, ticks[..k]), ticks[k], es);
      } else {
        assert Noticed(c, ticks) == es;
      }
    }
  }

  // ---- Trimming ----

  /** What is left in the accumulator after a turn that the run survives. */
  lemma TurnBuffer(c: Config, run: Run, t: Tick)
    requires run.exit == Running && PassthroughTurn(c, run, t).exit == Running
    ensures PassthroughTurn(c, run, t).buffer == if Frames(c, run, t) then Trim(c, Rest(run.buffer + t.read.bytes))
                                                 else run.buffer
    ensures t.read.Data? ==> Frames(c, run, t)
    ensures Frames(c, run, t) && c.policy.Some? ==> |Rest(run.buffer + t.read.bytes)| <= c.maxPolicyEventBytes
  {
  }

  /** A run that is not trimmed notices exactly the events of the framed stream. */
  lemma {:induction false} UntrimmedNotices(c: Config, ticks: seq<Tick>)
    requires Untrimmed(c, ticks) && PassThrough(c, ticks).exit == Running
    ensures Noticed(c, ticks) == Events(Bytes(ticks)) && PassThrough(c, ticks).buffer == Rest(Bytes(ticks))
  {
    if ticks == [] {
      assert Bytes(ticks) == "" && Events("") == [] && Rest("") == "";
    } else {
      var n := |ticks| - 1;
      var before, t, bytes := PassThrough(c, ticks[..n]), ticks[n], Bytes(ticks[..n]);
      UntrimmedPrefix(c, ticks, n);
      UntrimmedNotices(c, ticks[..n]);
      BytesSnoc(ticks);
      TurnBuffer(c, before, t);
      FramingResumes(bytes, BytesOf(t));
      if t.read.Data? {
        assert ticks[..|ticks|] == ticks && Kept(c, Bytes(ticks));
      } else {
        assert Bytes(ticks) == bytes;
      }
    }
  }

  /** How many bytes a run holds, in the events it noticed and in its accumulator. */
  function Held(c: Config, ticks: seq<Tick>): nat {
    |Flatten(Noticed(c, ticks))| + |PassThrough(c, ticks).buffer|
  }

  /** A turn holds on to its bytes, but for those it trims. */
  lemma TurnHolds(c: Config, ticks: seq<Tick>)
    requires ticks != [] && PassThrough(c, ticks).exit == Running
    ensures var before, t := PassThrough(c, ticks[..|ticks| - 1]), ticks[|ticks| - 1];
            var rest := Rest(before.buffer + BytesOf(t));
            && before.exit == Running
            && Held(c, ticks) <= Held(c, ticks[..|ticks| - 1]) + |BytesOf(t)|
            && (t.read.Data? && |rest| > 4 * c.readBufSize ==>
                  Held(c, ticks) < Held(c, ticks[..|ticks| - 1]) + |BytesOf(t)|)
  {
    var n := |ticks| - 1;
    var before, t := PassThrough(c, ticks[..n]), ticks[n];
    TurnBuffer(c, before, t);
    if t.read.Data? {
      var all := before.buffer + t.read.bytes;
      FlattenConcat(Noticed(c, ticks[..n]), Events(all));
      FramingConserves(all);
    } else {
      assert Noticed(c, ticks) == Noticed(c, ticks[..n]);
    }
  }

  /** A run that is trimmed has lost bytes for good. */
  lemma {:induction false} TrimmingLoses(c: Config, ticks: seq<Tick>)
    requires PassThrough(c, ticks).exit == Running
    ensures Held(c, ticks) <= |Bytes(ticks)|
    ensures !Untrimmed(c, ticks) ==> Held(c, ticks) < |Bytes(ticks)|
  {
    if ticks == [] {
      assert ticks[..0] == [] && Bytes(ticks) == "" && Rest("") == "";
    } else {
      var n := |ticks| - 1;
      var before, t := PassThrough(c, ticks[..n]), ticks[n];
      TurnHolds(c, ticks);
      TrimmingLoses(c, ticks[..n]);
      BytesSnoc(ticks);
      if Untrimmed(c, ticks[..n]) && !Untrimmed(c, ticks) {
        TrimsNow(c, ticks);
      }
    }
  }

  /** Where the first remainder over the limit is, the accumulator is cut. */
  lemma TrimsNow(c: Config, ticks: seq<Tick>)
    requires ticks != [] && PassThrough(c, ticks).exit == Running
    requires Untrimmed(c, ticks[..|ticks| - 1]) && !Untrimmed(c, ticks)
    ensures var before, t := PassThrough(c, ticks[..|ticks| - 1]), ticks[|ticks| - 1];
            t.read.Data? && |Rest(before.buffer + BytesOf(t))| > 4 * c.readBufSize
  {
    var n := |ticks| - 1;
    var t := ticks[n];
    forall i | 0 <= i <= n ensures Kept(c, Bytes(ticks[..i])) {
      assert ticks[..n][..i] == ticks[..i];
    }
    assert ticks[..|ticks|] == ticks;
    assert !Kept(c, Bytes(ticks));
    BytesSnoc(ticks);
    assert Bytes(ticks[..n]) + "" == Bytes(ticks[..n]);
    UntrimmedNotices(c, ticks[..n]);
    FramingResumes(Bytes(ticks[..n]), BytesOf(t));
  }

  /**
   * While a run is on, it has noticed exactly the events of the framed stream, and holds exactly its
   * remainder, if and only if no remainder ever went over four read buffers.
   */
  lemma NoticesExactly(c: Config, ticks: seq<Tick>)
    requires PassThrough(c, ticks).exit == Running
    ensures Noticed(c, ticks) == Events(Bytes(ticks)) && PassThrough(c, ticks).buffer == Rest(Bytes(ticks))
       <==> forall i | 0 <= i <= |ticks| :: |Rest(Bytes(ticks[..i]))| <= 4 * c.readBufSize
  {
    if Untrimmed(c, ticks) {
      UntrimmedNotices(c, ticks);
      forall i | 0 <= i <= |ticks| ensures |Rest(Bytes(ticks[..i]))| <= 4 * c.readBufSize {
        RemainderWithin(c, ticks, i);
      }
    } else {
      TrimmingLoses(c, ticks);
      FramingConserves(Bytes(ticks));
    }
  }

  /** With a policy, a run that is still on was never over the policy limit. */
  lemma {:induction false} RemainderWithin(c: Config, ticks: seq<Tick>, i: nat)
    requires Untrimmed(c, ticks) && PassThrough(c, ticks).exit == Running && i <= |ticks|
    ensures |Rest(Bytes(ticks[..i]))| <= 4 * c.readBufSize
    decreases |ticks|
  {
    if ticks == [] {
      assert Bytes(ticks[..i]) == "" && Rest("") == "";
    } else {
      var n := |ticks| - 1;
      UntrimmedPrefix(c, ticks, n);
      if i <= n {
        assert ticks[..n][..i] == ticks[..i];
        RemainderWithin(c, ticks[..n], i);
      } else {
        assert ticks[..i] == ticks;
        UntrimmedNotices(c, ticks);
        if ticks[n].read.Data? {
          UntrimmedNotices(c, ticks[..n]);
          TurnBuffer(c, PassThrough(c, ticks[..n]), ticks[n]);
          BytesSnoc(ticks);
          FramingResumes(Bytes(ticks[..n]), BytesOf(ticks[n]));
        } else {
          BytesSnoc(ticks);
          assert Bytes(ticks) == Bytes(ticks[..n]);
          RemainderWithin(c, ticks[..n], n);
          assert ticks[..n][..n] == ticks[..n];
        }
      }
    }
  }

  // ---- Whole runs ----

  /** The run of these ticks was still on after `m` of them, and the next one, if any, ended it. */
  predicate PassLasts(c: Config, ticks: seq<Tick>, m: nat) {
    && m <= |ticks|
    && PassThrough(c, ticks[..m]).exit == Running
    && (m == |ticks| <==> PassThrough(c, ticks).exit == Running)
    && (m < |ticks| ==> PassThrough(c, ticks) == PassthroughTurn(c, PassThrough(c, ticks[..m]), ticks[m]))
  }

  lemma {:induction false} PassLength(c: Config, ticks: seq<Tick>) returns (m: nat)
    ensures PassLasts(c, ticks, m)
  {
    m := |ticks|;
    assert ticks[..m] == ticks;
    if PassThrough(c, ticks).exit != Running {
      if PassThrough(c, ticks[..m - 1]).exit == Running {
        m := m - 1;
      } else {
        m := PassLength(c, ticks[..m - 1]);
        assert ticks[..|ticks| - 1][..m] == ticks[..m];
      }
    }
  }

  /**
   * Every run of `run_passthrough` that is not trimmed, finished or not: its marks are those of a
   * leading run of the framed events, and of all that it framed unless an event stopped it.
   */
  lemma PassthroughMarks(c: Config, ticks: seq<Tick>) returns (m: nat, n: nat)
    requires Untrimmed(c, ticks)
    ensures PassLasts(c, ticks, m)
    ensures |Events(Bytes(ticks[..m]))| <= n <= |Events(Bytes(ticks))|
    ensures PassThrough(c, ticks).pipe.result.marks == Observing(c.rules, Events(Bytes(ticks))[..n])
    ensures PassThrough(c, ticks).exit in {Running, Ended, KeepaliveFailed} ==> n == |Events(Bytes(ticks[..m]))|
    ensures PassThrough(c, ticks).exit == Oversized ==> m < |ticks| && n == |Events(Bytes(ticks[..m + 1]))|
  {
    m := PassLength(c, ticks);
    UntrimmedPrefix(c, ticks, m);
    UntrimmedNotices(c, ticks[..m]);
    n := NoticedMarks(c, ticks[..m]);
    var run, es := PassThrough(c, ticks[..m]), Events(Bytes(ticks[..m]));
    assert es[..n] == es;
    if m == |ticks| {
      assert ticks[..m] == ticks;
    } else {
      n := TurnMarks(c, run, ticks[m], es);
      FramingResumes(Bytes(ticks[..m]), BytesOf(ticks[m]));
      BytesAt(ticks, m);
      var more := Events(run.buffer + BytesOf(ticks[m]));
      TurnPrefix(c, run, ticks[m], es, more);
      TakePrefix(es + NewEvents(c, run, ticks[m]), es + more, n);
      TakePrefix(es + more, Events(Bytes(ticks)), n);
    }
  }

  lemma TurnPrefix(c: Config, run: Run, t: Tick, es: seq<string>, more: seq<string>)
    requires run.exit == Running && more == Events(run.buffer + BytesOf(t))
    ensures es + NewEvents(c, run, t) <= es + more
    ensures PassthroughTurn(c, run, t).exit == Oversized ==> NewEvents(c, run, t) == more
    ensures PassthroughTurn(c, run, t).exit in {Ended, KeepaliveFailed} ==> NewEvents(c, run, t) == []
  {
  }
}
