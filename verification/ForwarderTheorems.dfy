/** From provider bytes to a billable success: the streaming pipe and the classification together. */
module ForwarderTheorems {
  import opened Sse
  import opened StreamRules
  import opened StreamRulesTheorems
  import opened StreamPipe
  import opened StreamPipeTheorems
  import opened StreamPipeHonesty
  import opened StreamNotice
  import opened StreamGuarantees
  import opened Forwarder

  /** A converted stream is a success only if the provider really sent a terminal event. */
  lemma TransformedSuccessIsComplete(c: Config, terminal: string -> bool, ticks: seq<Tick>,
                                     status: int, outputStarted: bool, cancelled: bool, later: bool)
    requires Honest(c.rules, terminal) && Transform(c, ticks).exit != Running && status < 400
    requires Classify(status, Transform(c, ticks).pipe.result, outputStarted, cancelled, later).statusCode < 400
    ensures SeenIn(terminal, Bytes(ticks))
  {
    SuccessExactly(status, Transform(c, ticks).pipe.result, outputStarted, cancelled, later);
    TransformIsHonest(c, terminal, ticks);
    TerminalWasSent(c, terminal, ticks);
  }

  /** Some turn fails a keepalive, or leaves an exempt remainder over the policy limit, before any terminal event. */
  ghost predicate SilencedIn(c: Config, terminal: string -> bool, ticks: seq<Tick>) {
    exists i :: 0 <= i < |ticks| && SilentAt(c, terminal, ticks, i)
  }

  /**
   * A passed-through stream is a success only if the pipe noticed a terminal event, which the
   * provider really sent when the run was not trimmed, or was silenced. And being silenced is
   * enough once the client has some output and nothing else cancels the request.
   */
  lemma PassedSuccess(c: Config, terminal: string -> bool, ticks: seq<Tick>,
                      status: int, outputStarted: bool, cancelled: bool, later: bool)
    requires Honest(c.rules, terminal) && PassThrough(c, ticks).exit != Running && status < 400
    ensures var r := Classify(status, PassThrough(c, ticks).pipe.result, outputStarted, cancelled, later);
            && (r.statusCode < 400 ==>
                  SilencedIn(c, terminal, ticks) || exists e :: e in Noticed(c, ticks) && terminal(e))
            && (r.statusCode < 400 && Untrimmed(c, ticks) ==>
                  SilencedIn(c, terminal, ticks) || SeenIn(terminal, Bytes(ticks)))
            && (SilencedIn(c, terminal, ticks) && outputStarted && !cancelled && !later ==> r.statusCode < 400)
  {
    var run := PassThrough(c, ticks);
    SuccessExactly(status, run.pipe.result, outputStarted, cancelled, later);
    PassthroughIsHonest(c, terminal, ticks);
    SilentExactly(c, terminal, ticks);
    if run.pipe.result.marks.terminalEventSeen {
      NoticedTerminal(c, terminal, ticks);
      if Untrimmed(c, ticks) { PassedTerminal(c, terminal, ticks); }
    }
  }
}
