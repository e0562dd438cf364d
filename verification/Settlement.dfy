/**
 * What a request does under each lease, read off the answers of the Platform, the Provider and the
 * clock: the steps up to the end of the dispatch loop, the retry decision, and the settlement.
 */
module Settlement {
  import opened Seqs
  import opened Dispatch
  import opened Forwarder
  import opened Lease
  import F = Failover

  datatype DispatchResult = DispatchResult(outcome: Outcome, rejectCode: int, account: int, hasMediaOperation: bool)
  {
    predicate Granted() {
      outcome == Ok || outcome == Reauth
    }
  }

  /** Every answer of the outside world: by dispatch call, by lease, by abort, or for the response. */
  datatype World = World(
    dispatch: nat -> DispatchResult,
    deadlinePassed: nat -> bool,
    requestConverts: nat -> bool,
    evidenceAck: nat -> RpcAck,
    forward: nat -> ForwardResult,
    elapsedMs: nat -> nat,
    abortAck: nat -> RpcAck,
    crossFormat: bool, responseConverts: bool, embeddingsValid: bool, catalogValid: bool,
    responsesValid: bool, mediaAccepted: bool, mediaRunning: bool, recordSucceeds: bool)

  const MAX_ELAPSED_MS: nat := 10000

  /** The grants among the first `calls` dispatch answers. */
  function Grants(world: World, calls: nat): seq<DispatchResult> {
    if calls == 0 then []
    else Grants(world, calls - 1) + if world.dispatch(calls - 1).Granted() then [world.dispatch(calls - 1)] else []
  }

  // ---- One lease, up to the end of the loop ----

  /** The request cannot be converted to the format of the k-th grant's Provider. */
  predicate Unconvertible(req: Request, world: World, k: nat) {
    !req.bodyEmpty && req.capability.IsChat() && !world.requestConverts(k)
  }

  /** The Provider is called under the k-th lease. */
  predicate CallsProvider(req: Request, world: World, k: nat) {
    !Unconvertible(req, world, k) && world.evidenceAck(k).Acknowledged()
  }

  /** These aborts, of which the first is the abort number `from` of the request. */
  function AbortSteps(world: World, from: nat, dispositions: seq<AbortDisposition>): seq<Step> {
    seq(|dispositions|, i requires 0 <= i < |dispositions| =>
      Aborted(dispositions[i], world.abortAck(from + i).Acknowledged()))
  }

  predicate BrokenOff(r: ForwardResult) {
    (r.clientDisconnect && !r.outputStarted) || r.streamIncomplete
  }

  /** The aborts that the outcome of a call leads to. */
  function Dispositions(r: ForwardResult): seq<AbortDisposition> {
    if BrokenOff(r) || r.malformedUsage then
      (if BrokenOff(r) then [Unknown] else []) + (if r.malformedUsage then [Unknown] else [])
    else if r.statusCode >= 400 then [if IsExplicitRejection(r) then NoCharge else Unknown]
    else []
  }

  /** The aborts of the k-th lease inside the loop. */
  function LoopAborts(req: Request, world: World, k: nat): seq<AbortDisposition> {
    if Unconvertible(req, world, k) then []
    else if !world.evidenceAck(k).Acknowledged() then [NoCharge]
    else Dispositions(world.forward(k))
  }

  /** The steps of the k-th lease inside the loop; every lease before it was aborted once. */
  function LoopSteps(req: Request, world: World, k: nat): seq<Step> {
    if Unconvertible(req, world, k) then [Unconverted]
    else
      (if CallsProvider(req, world, k) then [Evidenced(true), Called(world.forward(k))] else [Evidenced(false)])
      + AbortSteps(world, k, LoopAborts(req, world, k))
  }

  /** The k-th lease is followed by another dispatch. */
  predicate Again(req: Request, world: World, k: nat, account: int, failover: F.State) {
    && CallsProvider(req, world, k) && Retryable(req, world.forward(k)) && world.elapsedMs(k) < MAX_ELAPSED_MS
    && F.HandleError(failover, account, world.forward(k).statusCode).1 != F.Exhausted
  }

  /** `forward_result` when the k-th lease is granted: that of the rejection before it. */
  function PreviousResult(world: World, k: nat): ForwardResult {
    if k == 0 then NoResult else world.forward(k - 1)
  }

  /** `forward_result` after the k-th lease; a call that was not made leaves the last one in place. */
  function ResultAfter(req: Request, world: World, k: nat): ForwardResult {
    if CallsProvider(req, world, k) then
      var r := world.forward(k);
      if r.malformedUsage then r.(statusCode := 502) else r
    else
      PreviousResult(world, k).(
        statusCode := if Unconvertible(req, world, k) then 400 else 503, bodyEmpty := false)
  }

  /** `terminal_abort` at the end of the loop. */
  predicate Halted(req: Request, world: World, k: nat) {
    Unconvertible(req, world, k) || LoopAborts(req, world, k) != []
  }

  // ---- Settlement of the last lease ----

  predicate Success(status: int) {
    200 <= status < 400
  }

  /** Does the response fail one of the checks that run on its body? At most one of them aborts. */
  predicate ResponseFails(req: Request, world: World, status: int) {
    || (status < 400 && req.capability.IsChat() && world.crossFormat && !world.responseConverts)
    || (Success(status) && req.capability == Embeddings && !world.embeddingsValid)
    || (Success(status) && req.capability in {Models, GeminiModels, CountTokens} && !world.catalogValid)
    || (Success(status) && !req.isStream && req.capability == Responses && !world.responsesValid)
  }

  predicate CheckFails(req: Request, world: World, fr: ForwardResult) {
    (!req.isStream || fr.statusCode >= 400) && !fr.bodyEmpty && ResponseFails(req, world, fr.statusCode)
  }

  /** A persistent task whose state the Platform would not take. */
  predicate TaskLost(req: Request, world: World, media: bool) {
    req.persistentCreate && media && !world.mediaAccepted
  }

  /** A persistent task that goes on: its usage is not known yet. */
  predicate TaskRuns(req: Request, world: World, media: bool, fr: ForwardResult, halted: bool) {
    && req.persistentCreate && media && world.mediaAccepted && world.mediaRunning
    && !halted && !CheckFails(req, world, fr) && fr.statusCode < 400
  }

  /** A call that is not billed gives its hold back. */
  predicate Releases(req: Request, world: World, media: bool, fr: ForwardResult, halted: bool) {
    && req.capability.NonBillable() && Success(fr.statusCode)
    && !halted && !CheckFails(req, world, fr) && !TaskLost(req, world, media)
  }

  function ClosingAborts(req: Request, world: World, media: bool, fr: ForwardResult, halted: bool)
    : seq<AbortDisposition>
  {
    (if CheckFails(req, world, fr) then [Unknown] else [])
    + (if TaskLost(req, world, media) then [Unknown] else [])
    + (if Releases(req, world, media, fr, halted) then [NoCharge] else [])
  }

  /** A usage event: always for late usage, otherwise unless something ended the lease. */
  predicate Bills(req: Request, world: World, media: bool, fr: ForwardResult, halted: bool, from: nat) {
    && !TaskRuns(req, world, media, fr, halted)
    && (Late(req, fr)
        || !(halted || CheckFails(req, world, fr) || TaskLost(req, world, media)
             || (Releases(req, world, media, fr, halted) && world.abortAck(from).Acknowledged())))
  }

  /** The steps from the end of the loop to the end of the request. */
  function Closing(req: Request, world: World, media: bool, fr: ForwardResult, halted: bool, from: nat): seq<Step> {
    AbortSteps(world, from, ClosingAborts(req, world, media, fr, halted))
    + if Bills(req, world, media, fr, halted, from) then [if world.recordSucceeds then Recorded else Reported]
      else if TaskRuns(req, world, media, fr, halted) then [Deferred]
      else []
  }

  /** Everything that happens under the k-th lease. */
  function StepsOf(req: Request, world: World, k: nat, grant: DispatchResult, failover: F.State): seq<Step> {
    LoopSteps(req, world, k)
    + if Again(req, world, k, grant.account, failover) then []
      else Closing(req, world, grant.hasMediaOperation, ResultAfter(req, world, k), Halted(req, world, k),
                   k + |LoopAborts(req, world, k)|)
  }

  lemma StepsOfIs(req: Request, world: World, k: nat, grant: DispatchResult, failover: F.State)
    ensures StepsOf(req, world, k, grant, failover)
         == if Again(req, world, k, grant.account, failover) then LoopSteps(req, world, k)
            else LoopSteps(req, world, k)
                 + Closing(req, world, grant.hasMediaOperation, ResultAfter(req, world, k), Halted(req, world, k),
                           k + |LoopAborts(req, world, k)|)
  {
    assert LoopSteps(req, world, k) + [] == LoopSteps(req, world, k);
  }

  // ---- The whole request ----

  predicate LeaseExplained(req: Request, world: World, h: seq<Attempt>, k: nat, grant: DispatchResult)
    requires k < |h|
  {
    && h[k].account == grant.account
    && h[k].steps == StepsOf(req, world, k, grant, FailoverAfter(h[..k]))
  }

  /** One lease for each grant, on its account, with the steps that the world calls for. */
  predicate Explained(req: Request, world: World, h: seq<Attempt>, calls: nat) {
    && |h| == |Grants(world, calls)|
    && forall k | 0 <= k < |h| :: LeaseExplained(req, world, h, k, Grants(world, calls)[k])
  }

  /** The lease is never settled: the request could not be converted, and no task state was refused. */
  predicate LeftOpen(req: Request, world: World, k: nat, grant: DispatchResult) {
    Unconvertible(req, world, k) && !TaskLost(req, world, grant.hasMediaOperation)
  }

  /** How many of the first `n` dispatch answers have this outcome. */
  function Answers(world: World, outcome: Outcome, n: nat): nat {
    if n == 0 then 0
    else Answers(world, outcome, n - 1) + if world.dispatch(n - 1).outcome == outcome then 1 else 0
  }

  /** The request goes on after the answer: a grant, or in time a wait or a failure of the transport. */
  predicate PassedOver(world: World, i: nat) {
    var answer := world.dispatch(i);
    || answer.Granted()
    || (!world.deadlinePassed(i)
        && (answer.outcome == Wait || IsRetryableDispatch(answer.outcome, answer.rejectCode)))
  }

  predicate AllPassedOver(world: World, n: nat)
    ensures AllPassedOver(world, n) <==> forall i: nat | i < n :: PassedOver(world, i)
  {
    n == 0 || (AllPassedOver(world, n - 1) && PassedOver(world, n - 1))
  }

  /** The request has gone on after each of these answers, and has counted its waits and transport retries. */
  predicate Tolerated(world: World, n: nat, waits: nat, transports: nat) {
    AllPassedOver(world, n) && waits == Answers(world, Wait, n) && transports == Answers(world, Rejected, n)
  }

  /** The last answer is final: no retry is left, or it is too late for one. */
  predicate GivesUp(world: World, calls: nat, waits: nat, transports: nat)
    requires calls > 0
  {
    var last, late := world.dispatch(calls - 1), world.deadlinePassed(calls - 1);
    || (last.outcome == Wait && (waits == 8 || late))
    || (last.outcome == Rejected
        && (!IsRetryableDispatch(last.outcome, last.rejectCode) || transports == 8 || late))
  }

  lemma ExplainedSnoc(req: Request, world: World, h: seq<Attempt>, calls: nat, a: Attempt, calls': nat,
                      g: DispatchResult)
    requires Explained(req, world, h, calls) && Grants(world, calls') == Grants(world, calls) + [g]
    requires a.account == g.account && a.steps == StepsOf(req, world, |h|, g, FailoverAfter(h))
    ensures Explained(req, world, h + [a], calls')
  {
    var h' := h + [a];
    forall k | 0 <= k < |h'| ensures LeaseExplained(req, world, h', k, Grants(world, calls')[k]) {
      if k < |h| {
        assert LeaseExplained(req, world, h, k, Grants(world, calls)[k]);
        assert h'[..k] == h[..k];
      } else {
        assert h'[..k] == h;
      }
    }
  }

  // ---- What follows for one lease ----

  /** A lease that is retried was called, rejected and aborted without charge. */
  lemma AgainSteps(req: Request, world: World, k: nat, account: int, failover: F.State)
    requires Again(req, world, k, account, failover)
    ensures LoopAborts(req, world, k) == [NoCharge] && ResultAfter(req, world, k) == world.forward(k)
    ensures LoopSteps(req, world, k) == RetriedSteps(world.forward(k), world.abortAck(k).Acknowledged())
    ensures Retried(req, LoopSteps(req, world, k))
  {
    var r := world.forward(k);
    assert Dispositions(r) == [NoCharge];
    assert AbortSteps(world, k, [NoCharge]) == [Aborted(NoCharge, world.abortAck(k).Acknowledged())];
  }

  lemma AbortStepsOnly(world: World, from: nat, ds: seq<AbortDisposition>, x: Step)
    requires !x.Aborted?
    ensures x !in AbortSteps(world, from, ds)
  {
  }

  /** The settlement neither calls the Provider nor converts anything. */
  lemma ClosingPlain(req: Request, world: World, media: bool, fr: ForwardResult, halted: bool, from: nat, x: Step)
    requires x.Called? || x.Unconverted?
    ensures x !in Closing(req, world, media, fr, halted, from)
  {
    var ds := ClosingAborts(req, world, media, fr, halted);
    var tail := Closing(req, world, media, fr, halted, from)[|ds|..];
    AbortStepsOnly(world, from, ds, x);
    InConcat(AbortSteps(world, from, ds), tail, x);
  }

  lemma LoopCalls(req: Request, world: World, k: nat, r: ForwardResult)
    ensures Called(r) in LoopSteps(req, world, k) <==> CallsProvider(req, world, k) && r == world.forward(k)
    ensures Unconverted in LoopSteps(req, world, k) <==> Unconvertible(req, world, k)
  {
    var loop := LoopSteps(req, world, k);
    if CallsProvider(req, world, k) { assert loop[1] == Called(world.forward(k)); }
    if Unconvertible(req, world, k) { assert loop[0] == Unconverted; }
  }

  lemma InFirst<T>(a: seq<T>, b: seq<T>, only: bool, s: seq<T>, x: T)
    requires x !in b && s == if only then a else a + b
    ensures x in s <==> x in a
  {
    InConcat(a, b, x);
  }

  lemma LoopOnly(req: Request, world: World, k: nat, grant: DispatchResult, failover: F.State, s: seq<Step>, x: Step)
    requires x.Called? || x.Unconverted?
    requires s == StepsOf(req, world, k, grant, failover)
    ensures x in s <==> x in LoopSteps(req, world, k)
  {
    var media, fr, halted := grant.hasMediaOperation, ResultAfter(req, world, k), Halted(req, world, k);
    var from := k + |LoopAborts(req, world, k)|;
    StepsOfIs(req, world, k, grant, failover);
    ClosingPlain(req, world, media, fr, halted, from, x);
    InFirst(LoopSteps(req, world, k), Closing(req, world, media, fr, halted, from),
            Again(req, world, k, grant.account, failover), s, x);
  }

  /** The Provider is called under a lease, and answers as it does, exactly when it may be called. */
  lemma CalledExactly(req: Request, world: World, k: nat, grant: DispatchResult, failover: F.State, r: ForwardResult)
    ensures Called(r) in StepsOf(req, world, k, grant, failover)
       <==> CallsProvider(req, world, k) && r == world.forward(k)
  {
    LoopOnly(req, world, k, grant, failover, StepsOf(req, world, k, grant, failover), Called(r));
    LoopCalls(req, world, k, r);
  }

  lemma UnconvertedExactly(req: Request, world: World, k: nat, grant: DispatchResult, failover: F.State)
    ensures Unconverted in StepsOf(req, world, k, grant, failover) <==> Unconvertible(req, world, k)
  {
    LoopOnly(req, world, k, grant, failover, StepsOf(req, world, k, grant, failover), Unconverted);
    LoopCalls(req, world, k, NoResult);
  }

  /** A lease whose request could not be converted gets one abort if a task state was refused, and nothing else. */
  lemma UnconvertedSteps(req: Request, world: World, k: nat, grant: DispatchResult, failover: F.State)
    requires Unconvertible(req, world, k) && !PreviousResult(world, k).streamIncomplete
    ensures StepsOf(req, world, k, grant, failover)
         == [Unconverted]
            + AbortSteps(world, k, if TaskLost(req, world, grant.hasMediaOperation) then [Unknown] else [])
  {
    var fr, media := ResultAfter(req, world, k), grant.hasMediaOperation;
    assert !Late(req, fr) && !CheckFails(req, world, fr) && Halted(req, world, k);
    assert ClosingAborts(req, world, media, fr, true) == if TaskLost(req, world, media) then [Unknown] else [];
  }

  /** Exactly the leases that are left open are never settled. */
  lemma OpenExactly(req: Request, world: World, k: nat, grant: DispatchResult, failover: F.State, s: seq<Step>)
    requires s == StepsOf(req, world, k, grant, failover)
    requires WellKept(req, s) && !PreviousResult(world, k).streamIncomplete
    ensures !Settled(s) <==> LeftOpen(req, world, k, grant)
  {
    UnconvertedExactly(req, world, k, grant, failover);
    if Unconvertible(req, world, k) {
      UnconvertedSteps(req, world, k, grant, failover);
      UnconvertedOpen(world, k, TaskLost(req, world, grant.hasMediaOperation), s);
    }
  }

  lemma UnconvertedOpen(world: World, k: nat, lost: bool, s: seq<Step>)
    requires s == [Unconverted] + AbortSteps(world, k, if lost then [Unknown] else [])
    ensures Settled(s) <==> lost
  {
    if lost { assert s[1].Aborted? && s[1] in s; }
  }

  /** Such worlds exist: one grant, and a chat request that does not convert. */
  lemma LeftOpenHappens(req: Request, account: int) returns (world: World)
    requires req.capability.IsChat() && !req.bodyEmpty
    ensures var grant := DispatchResult(Ok, 0, account, false);
            && Grants(world, 1) == [grant] && LeftOpen(req, world, 0, grant)
            && StepsOf(req, world, 0, grant, F.Initial(10, 3)) == [Unconverted]
            && !Settled(StepsOf(req, world, 0, grant, F.Initial(10, 3)))
  {
    var yes := RpcAck(true, false, false);
    var grant := DispatchResult(Ok, 0, account, false);
    world := World(n => grant, n => false, k => false, k => yes, k => NoResult, k => 0, k => yes,
                   false, true, true, true, true, true, false, true);
    assert Grants(world, 0) == [];
    UnconvertedSteps(req, world, 0, grant, F.Initial(10, 3));
  }
}
