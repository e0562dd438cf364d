/**
 * The streaming pipe: cuts the provider's byte stream into SSE events across arbitrary read
 * boundaries, gates each event through the content policy, survives partial client writes and
 * tracks usage and terminal events.
 *
 * Reads, clock comparisons, client writes and policy answers are oracles, so a statement about
 * every configuration and every script of ticks is a statement about every run.
 */
module StreamPipe {
  import opened Seqs
  import opened Sse
  import opened StreamRules

  datatype Config = Config(
    rules: Rules, readBufSize: nat, maxPolicyEventBytes: nat, injectKeepalive: bool,
    policy: Option<(nat, string) -> Decision>,  // the answer to the k-th consultation
    accepts: nat -> int)                        // what the k-th client write returns

  /** `sent` holds the client bytes apart from keepalive comments; `stopped` marks an early return. */
  datatype Pipe = Pipe(result: StreamResult, sent: string, writes: nat, asked: nat, stopped: bool)

  const Start: Pipe := Pipe(FreshResult, "", 0, 0, false)

  // ---- Client writes ----

  /** Bytes taken by the k-th write of `len` bytes; a result of zero or less is a disconnect. */
  function Taken(c: Config, k: nat, len: nat): (n: nat)
    ensures n <= len
  {
    if c.accepts(k) <= 0 then 0 else if c.accepts(k) > len then len else c.accepts(k)
  }

  function WriteFrom(c: Config, p: Pipe, data: string, written: nat): (Pipe, bool)
    requires written <= |data|
    decreases |data| - written
  {
    if written == |data| then
      (p.(result := p.result.(bytesForwarded := p.result.bytesForwarded + |data|)), true)
    else
      var n := Taken(c, p.writes, |data| - written);
      if n == 0 then (p.(writes := p.writes + 1, result := p.result.(clientDisconnect := true)), false)
      else
        WriteFrom(c, p.(writes := p.writes + 1, sent := p.sent + data[written..written + n]), data, written + n)
  }

  function WriteAll(c: Config, p: Pipe, data: string): (Pipe, bool) {
    WriteFrom(c, p, data, 0)
  }

  // ---- Content policy ----

  /** No policy, or an event that carries no user-visible text. */
  predicate Exempt(c: Config, event: string) {
    c.policy.None? || c.rules.exempt(event)
  }

  function Judge(c: Config, asked: nat, content: string): Decision
    requires c.policy.Some?
  {
    if |content| > c.maxPolicyEventBytes then TOO_LARGE else (c.policy.value)(asked, content)
  }

  function AskedAfter(c: Config, asked: nat, event: string, content: string): nat {
    if Exempt(c, event) || |content| > c.maxPolicyEventBytes then asked else asked + 1
  }

  function Refuse(r: StreamResult, d: Decision): StreamResult {
    r.(policyBlocked := d.disposition == Block,
       policyFailedClosed := d.disposition == FailClosed,
       policyErrorCode := ErrorCode(d),
       policyMessage := ErrorMessage(d),
       incomplete := true)
  }

  function ApplyPolicy(c: Config, p: Pipe, event: string, clientEvent: string): (Pipe, bool) {
    var content := if clientEvent == "" then event else clientEvent;
    var p' := p.(asked := AskedAfter(c, p.asked, event, content));
    if Exempt(c, event) || Judge(c, p.asked, content).disposition == Allow then (p', true)
    else (p'.(result := Refuse(p.result, Judge(c, p.asked, content))), false)
  }

  // ---- Per-event processing ----

  function EmitPolicyError(c: Config, p: Pipe): Pipe {
    WriteAll(c, p, c.rules.error(p.result.policyErrorCode, p.result.policyMessage)).0
  }

  /** One complete event: observe it, ask the policy, deliver it. */
  function OnEvent(c: Config, p: Pipe, event: string): Pipe {
    var form := c.rules.form(event);
    var seen := p.(result := p.result.(marks := c.rules.observe(p.result.marks, event)));
    var (judged, ok) := ApplyPolicy(c, seen, event, form);
    if !ok then EmitPolicyError(c, judged).(stopped := true)
    else if form == "" then judged
    else
      var (wrote, done) := WriteAll(c, judged, form);
      if done then wrote
      else wrote.(stopped := true, result := wrote.result.(incomplete := !wrote.result.marks.terminalEventSeen))
  }

  function Feed(c: Config, p: Pipe, es: seq<string>): Pipe
    decreases |es|
  {
    if p.stopped || es == [] then p else Feed(c, OnEvent(c, p, es[0]), es[1..])
  }

  // ---- Runs ----

  datatype Read = Data(bytes: string) | Eof | Disconnected | Stalled

  /** One turn of a read loop: what the read returned and how the clock compared with each limit. */
  datatype Tick = Tick(read: Read, overTotal: bool, firstTokenLate: bool, interChunkLate: bool, silent: bool)

  datatype Exit = Running | Ended | Stopped | KeepaliveFailed | Oversized

  datatype Run = Run(pipe: Pipe, buffer: string, firstToken: bool, exit: Exit)

  const Fresh: Run := Run(Start, "", false, Running)

  /** Does the turn end the run by itself: a deadline, a disconnect or the end of the stream? */
  predicate Ends(t: Tick, firstToken: bool) {
    || t.overTotal
    || t.read.Eof? || t.read.Disconnected?
    || (t.read.Stalled? && if firstToken then t.interChunkLate else t.firstTokenLate)
  }

  function Close(r: StreamResult, t: Tick): StreamResult {
    if t.overTotal || t.read.Stalled? then r.(incomplete := true, timedOut := true)
    else if t.read.Eof? && r.marks.terminalEventSeen then r.(completed := true)
    else r.(completed := t.read.Eof?, incomplete := true, providerDisconnect := true)
  }

  function Finished(run: Run, t: Tick): Run {
    run.(pipe := run.pipe.(result := Close(run.pipe.result, t)), exit := Ended)
  }

  /** One turn of `run_transform`. */
  function TransformTurn(c: Config, run: Run, t: Tick): Run {
    if run.exit != Running then run
    else if Ends(t, run.firstToken) then Finished(run, t)
    else if !t.read.Data? then run
    else
      var buffer := run.buffer + t.read.bytes;
      var p := Feed(c, run.pipe, Events(buffer));
      if p.stopped then Run(p, buffer, true, Stopped) else Run(p, Rest(buffer), true, Running)
  }

  function Transform(c: Config, ticks: seq<Tick>): Run {
    if ticks == [] then Fresh
    else TransformTurn(c, Transform(c, ticks[..|ticks| - 1]), ticks[|ticks| - 1])
  }

  const KEEPALIVE: string := ": keepalive\n\n"

  function Trim(c: Config, buffer: string): string {
    if |buffer| > c.readBufSize * 4 then buffer[|buffer| - c.readBufSize..] else buffer
  }

  /** A data chunk in `run_passthrough`, after the raw bytes were passed on when no policy is set. */
  function PassthroughEvents(c: Config, p: Pipe, buffer: string): Run {
    var fed := Feed(c, p, Events(buffer));
    var rest := Rest(buffer);
    if fed.stopped then Run(fed, buffer, true, Stopped)
    else if c.policy.Some? && |rest| > c.maxPolicyEventBytes then
      Run(EmitPolicyError(c, ApplyPolicy(c, fed, rest, rest).0), rest, true, Oversized)
    else Run(fed, Trim(c, rest), true, Running)
  }

  /** Without a policy the bytes are passed on as they come, then framed for usage only. */
  function RawWrite(c: Config, run: Run, bytes: string): Run {
    var (wrote, ok) := WriteAll(c, run.pipe, bytes);
    if ok then PassthroughEvents(c, wrote, run.buffer + bytes)
    else Run(wrote.(result := wrote.result.(incomplete := !wrote.result.marks.terminalEventSeen)),
             run.buffer, true, Stopped)
  }

  /** A keepalive comment toward a silent client. */
  function Keepalive(c: Config, run: Run): Run {
    var kept := run.(pipe := run.pipe.(writes := run.pipe.writes + 1));
    if Taken(c, run.pipe.writes, |KEEPALIVE|) > 0 then kept
    else kept.(exit := KeepaliveFailed,
               pipe := kept.pipe.(result := kept.pipe.result.(clientDisconnect := true)))
  }

  /** One turn of `run_passthrough`. */
  function PassthroughTurn(c: Config, run: Run, t: Tick): Run {
    if run.exit != Running then run
    else if Ends(t, run.firstToken) then Finished(run, t)
    else match t.read
         case Stalled => if c.injectKeepalive && t.silent then Keepalive(c, run) else run
         case Data(bytes) =>
           if c.policy.Some? then PassthroughEvents(c, run.pipe, run.buffer + bytes) else RawWrite(c, run, bytes)
         case _ => run
  }

  function PassThrough(c: Config, ticks: seq<Tick>): Run {
    if ticks == [] then Fresh
    else PassthroughTurn(c, PassThrough(c, ticks[..|ticks| - 1]), ticks[|ticks| - 1])
  }

  // ---- A run that is over stays as it is ----

  lemma {:induction false} TransformStays(c: Config, ticks: seq<Tick>, n: nat)
    requires n <= |ticks| && Transform(c, ticks[..n]).exit != Running
    ensures Transform(c, ticks) == Transform(c, ticks[..n])
    decreases |ticks|
  {
    if n == |ticks| {
      assert ticks[..n] == ticks;
    } else {
      assert ticks[..|ticks| - 1][..n] == ticks[..n];
      TransformStays(c, ticks[..|ticks| - 1], n);
    }
  }

  lemma {:induction false} PassThroughStays(c: Config, ticks: seq<Tick>, n: nat)
    requires n <= |ticks| && PassThrough(c, ticks[..n]).exit != Running
    ensures PassThrough(c, ticks) == PassThrough(c, ticks[..n])
    decreases |ticks|
  {
    if n == |ticks| {
      assert ticks[..n] == ticks;
    } else {
      assert ticks[..|ticks| - 1][..n] == ticks[..n];
      PassThroughStays(c, ticks[..|ticks| - 1], n);
    }
  }
}
