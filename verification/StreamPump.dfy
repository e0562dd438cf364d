/** The streaming pipe as the object it is: its buffers and counters are updated in place by the read loops. */
module StreamPump {
  import opened Seqs
  import opened Sse
  import opened StreamRules
  import P = StreamPipe

  class Pump {
    const config: P.Config
    var result: StreamResult
    var accumulator: string
    var sent: string
    var writes: nat
    var asked: nat

    constructor (config: P.Config)
      ensures this.config == config && accumulator == "" && Now(false) == P.Start
    {
      this.config := config;
      result, accumulator, sent, writes, asked := FreshResult, "", "", 0, 0;
    }

    ghost function Now(stopped: bool): P.Pipe
      reads this
    {
      P.Pipe(result, sent, writes, asked, stopped)
    }

    /** `write_all`: writes until everything is taken or the client is gone. */
    method WriteAll(data: string) returns (ok: bool)
      modifies this
      ensures (Now(false), ok) == P.WriteAll(config, old(Now(false)), data)
      ensures accumulator == old(accumulator)
    {
      var written := 0;
      while written < |data|
        invariant 0 <= written <= |data| && accumulator == old(accumulator)
        invariant P.WriteAll(config, old(Now(false)), data) == P.WriteFrom(config, Now(false), data, written)
      {
        var count := P.Taken(config, writes, |data| - written);
        writes := writes + 1;
        if count == 0 {
          result := result.(clientDisconnect := true);
          return false;
        }
        sent := sent + data[written..written + count];
        written := written + count;
      }
      result := result.(bytesForwarded := result.bytesForwarded + |data|);
      ok := true;
    }

    /** `apply_policy`: true when the event may be delivered. */
    method ApplyPolicy(event: string, clientEvent: string) returns (ok: bool)
      modifies this
      ensures (Now(false), ok) == P.ApplyPolicy(config, old(Now(false)), event, clientEvent)
      ensures accumulator == old(accumulator)
    {
      if P.Exempt(config, event) { return true; }
      var content := if clientEvent == "" then event else clientEvent;
      var decision := P.Judge(config, asked, content);
      asked := P.AskedAfter(config, asked, event, content);
      if decision.disposition == Allow { return true; }
      result := P.Refuse(result, decision);
      ok := false;
    }

    /** One complete event; true when the run must return. */
    method ProcessEvent(event: string) returns (stopped: bool)
      modifies this
      ensures Now(stopped) == P.OnEvent(config, old(Now(false)), event)
      ensures accumulator == old(accumulator)
    {
      var form := config.rules.form(event);
      result := result.(marks := config.rules.observe(result.marks, event));
      var allowed := ApplyPolicy(event, form);
      if !allowed {
        var _ := WriteAll(config.rules.error(result.policyErrorCode, result.policyMessage));
        return true;
      }
      if form != "" {
        var delivered := WriteAll(form);
        if !delivered {
          result := result.(incomplete := !result.marks.terminalEventSeen);
          return true;
        }
      }
      stopped := false;
    }

    /** The inner loop: every complete event of the accumulator, then the remainder is kept. */
    method Drain() returns (stopped: bool)
      modifies this
      ensures Now(stopped) == P.Feed(config, old(Now(false)), Events(old(accumulator)))
      ensures accumulator == if stopped then old(accumulator) else Rest(old(accumulator))
    {
      var pos := 0;
      assert accumulator[0..] == accumulator;
      while true
        invariant 0 <= pos <= |accumulator| && accumulator == old(accumulator)
        invariant P.Feed(config, old(Now(false)), Events(old(accumulator)))
               == P.Feed(config, Now(false), Events(accumulator[pos..]))
        invariant Rest(accumulator) == Rest(accumulator[pos..])
        decreases |accumulator| - pos
      {
        var end := NextEnd(accumulator, pos);
        SearchFrames(accumulator, pos);
        if end.None? { break; }
        FeedOne(config, Now(false), accumulator[pos..end.value], Events(accumulator[end.value..]));
        stopped := ProcessEvent(accumulator[pos..end.value]);
        if stopped { return; }
        pos := end.value;
      }
      accumulator := accumulator[pos..];
      stopped := false;
    }

    ghost predicate Shows(run: P.Run, firstToken: bool, exit: P.Exit)
      reads this
    {
      && run.pipe == Now(run.pipe.stopped)
      && run.buffer == accumulator && run.firstToken == firstToken && run.exit == exit
      && (exit == P.Running ==> !run.pipe.stopped)
    }

    /** `run_transform`, up to the end of a script of ticks. */
    method RunTransform(ticks: seq<P.Tick>) returns (exit: P.Exit)
      requires Now(false) == P.Start && accumulator == ""
      modifies this
      ensures exists first :: Shows(P.Transform(config, ticks), first, exit)
    {
      var firstToken := false;
      exit := P.Running;
      for i := 0 to |ticks|
        invariant exit == P.Running && Shows(P.Transform(config, ticks[..i]), firstToken, exit)
      {
        var t := ticks[i];
        assert ticks[..i + 1][..i] == ticks[..i];
        ghost var before := P.Transform(config, ticks[..i]);
        if P.Ends(t, firstToken) {
          result := P.Close(result, t);
          exit := P.Ended;
        } else if t.read.Data? {
          firstToken := true;
          accumulator := accumulator + t.read.bytes;
          var stopped := Drain();
          if stopped { exit := P.Stopped; }
        }
        assert P.Transform(config, ticks[..i + 1]) == P.TransformTurn(config, before, t);
        assert Shows(P.Transform(config, ticks[..i + 1]), firstToken, exit);
        if exit != P.Running {
          P.TransformStays(config, ticks, i + 1);
          return;
        }
      }
      assert ticks[..|ticks|] == ticks;
    }

    /** `run_passthrough`, up to the end of a script of ticks. */
    method RunPassthrough(ticks: seq<P.Tick>) returns (exit: P.Exit)
      requires Now(false) == P.Start && accumulator == ""
      modifies this
      ensures exists first :: Shows(P.PassThrough(config, ticks), first, exit)
    {
      var firstToken := false;
      exit := P.Running;
      for i := 0 to |ticks|
        invariant exit == P.Running && Shows(P.PassThrough(config, ticks[..i]), firstToken, exit)
      {
        var t := ticks[i];
        assert ticks[..i + 1][..i] == ticks[..i];
        ghost var before := P.PassThrough(config, ticks[..i]);
        if P.Ends(t, firstToken) {
          result := P.Close(result, t);
          exit := P.Ended;
        } else {
          match t.read {
            case Stalled => exit := KeepClientAlive(t);
            case Data(bytes) =>
              firstToken := true;
              exit := PassChunk(bytes);
            case _ =>
          }
        }
        assert P.PassThrough(config, ticks[..i + 1]) == P.PassthroughTurn(config, before, t);
        assert Shows(P.PassThrough(config, ticks[..i + 1]), firstToken, exit);
        if exit != P.Running {
          P.PassThroughStays(config, ticks, i + 1);
          return;
        }
      }
      assert ticks[..|ticks|] == ticks;
    }

    method KeepClientAlive(t: P.Tick) returns (exit: P.Exit)
      modifies this
      ensures forall first :: var run := P.Run(old(Now(false)), old(accumulator), first, P.Running);
                Shows(if config.injectKeepalive && t.silent then P.Keepalive(config, run) else run, first, exit)
    {
      exit := P.Running;
      if config.injectKeepalive && t.silent {
        var count := P.Taken(config, writes, |P.KEEPALIVE|);
        writes := writes + 1;
        if count == 0 {
          result := result.(clientDisconnect := true);
          exit := P.KeepaliveFailed;
        }
      }
    }

    /** A data chunk of `run_passthrough`. */
    method PassChunk(bytes: string) returns (exit: P.Exit)
      modifies this
      ensures var run := P.Run(old(Now(false)), old(accumulator), true, P.Running);
              Shows(if config.policy.Some? then P.PassthroughEvents(config, run.pipe, run.buffer + bytes)
                    else P.RawWrite(config, run, bytes), true, exit)
    {
      if config.policy.None? {
        var ok := WriteAll(bytes);
        if !ok {
          result := result.(incomplete := !result.marks.terminalEventSeen);
          return P.Stopped;
        }
      }
      accumulator := accumulator + bytes;
      var stopped := Drain();
      if stopped { return P.Stopped; }
      if config.policy.Some? && |accumulator| > config.maxPolicyEventBytes {
        var _ := ApplyPolicy(accumulator, accumulator);
        var _ := WriteAll(config.rules.error(result.policyErrorCode, result.policyMessage));
        return P.Oversized;
      }
      if |accumulator| > config.readBufSize * 4 {
        accumulator := accumulator[|accumulator| - config.readBufSize..];
      }
      exit := P.Running;
    }
  }

  lemma FeedOne(c: P.Config, p: P.Pipe, e: string, es: seq<string>)
    requires !p.stopped
    ensures P.Feed(c, p, [e] + es) == P.Feed(c, P.OnEvent(c, p, e), es)
  {
    assert ([e] + es)[1..] == es;
  }
}
