/**
 * The request handler's dispatch, forward and failover loop and its settlement, against a Platform,
 * a Provider and a clock that answer as they please.
 */
module Gateway {
  import opened Seqs
  import opened Dispatch
  import opened Forwarder
  import opened Lease
  import opened Settlement
  import opened SettlementTheorems
  import F = Failover

  // ---- The loop ----

  /** The inner dispatch loop: waits for a grant, or gives up. */
  method AwaitGrant(world: World, calls0: nat, waits0: nat, transports0: nat)
    returns (granted: Option<DispatchResult>, calls: nat, waits: nat, transports: nat)
    requires waits0 <= 8 && transports0 <= 8 && Tolerated(world, calls0, waits0, transports0)
    ensures waits0 <= waits <= 8 && transports0 <= transports <= 8
    ensures calls > 0 && Tolerated(world, calls - 1, waits, transports)
    ensures calls == calls0 + 1 + (waits - waits0) + (transports - transports0)
    ensures Grants(world, calls) == Grants(world, calls0) + AsSeq(granted)
    ensures granted.Some? ==> granted.value == world.dispatch(calls - 1) && granted.value.Granted()
                              && Tolerated(world, calls, waits, transports)
    ensures granted.None? ==> GivesUp(world, calls, waits, transports)
  {
    calls, waits, transports := calls0, waits0, transports0;
    while true
      invariant waits0 <= waits <= 8 && transports0 <= transports <= 8
      invariant calls == calls0 + (waits - waits0) + (transports - transports0)
      invariant Grants(world, calls) == Grants(world, calls0) && Tolerated(world, calls, waits, transports)
      decreases 16 - waits - transports
    {
      var result, late := world.dispatch(calls), world.deadlinePassed(calls);
      calls := calls + 1;
      match result.outcome {
        case Ok => return Some(result), calls, waits, transports;
        case Reauth => return Some(result), calls, waits, transports;
        case Rejected =>
          if !IsRetryableDispatch(result.outcome, result.rejectCode) || transports == 8 || late {
            return None, calls, waits, transports;
          }
          transports := transports + 1;
        case Wait =>
          if waits == 8 || late { return None, calls, waits, transports; }
          waits := waits + 1;
      }
    }
  }

  /** The loop body after a Provider call: aborts and the retry decision. */
  method AfterCall(req: Request, world: World, k: nat, account: int, failover: F.FailoverController)
    returns (ends: seq<Step>, aborts: nat, fr: ForwardResult, terminal: bool, retry: bool)
    requires CallsProvider(req, world, k)
    modifies failover
    ensures ends == AbortSteps(world, k, Dispositions(world.forward(k))) && aborts == k + |ends|
    ensures fr == ResultAfter(req, world, k)
    ensures retry == Again(req, world, k, account, old(failover.Now()))
    ensures retry ==> failover.Now() == F.HandleError(old(failover.Now()), account, fr.statusCode).0
    ensures !retry ==> terminal == (ends != [])
  {
    var r := world.forward(k);
    ends, aborts, fr, terminal, retry := [], k, r, false, false;
    if (r.clientDisconnect && !r.outputStarted) || r.streamIncomplete {
      ends := ends + [Aborted(Unknown, world.abortAck(aborts).Acknowledged())];
      aborts, terminal := aborts + 1, true;
    }
    if r.malformedUsage {
      ends := ends + [Aborted(Unknown, world.abortAck(aborts).Acknowledged())];
      aborts, terminal := aborts + 1, true;
      fr := fr.(statusCode := 502);
    }
    if fr.statusCode >= 400 && !r.malformedUsage && !terminal {
      var retryable := IsExplicitRejection(r) && req.canFailover && !r.outputStarted
                       && world.elapsedMs(k) < MAX_ELAPSED_MS && IsRetryableStatus(fr.statusCode);
      var action := F.Exhausted;
      if retryable { action := failover.OnError(account, fr.statusCode); }
      ends := [Aborted(if IsExplicitRejection(r) then NoCharge else Unknown, world.abortAck(aborts).Acknowledged())];
      aborts := aborts + 1;
      retry, terminal := action != F.Exhausted, action == F.Exhausted;
    }
  }

  /** One lease up to the end of the loop body: evidence, the Provider call, aborts, the retry decision. */
  method TryLease(req: Request, world: World, k: nat, account: int,
                  failover: F.FailoverController, prev: ForwardResult)
    returns (steps: seq<Step>, aborts: nat, fr: ForwardResult, terminal: bool, retry: bool)
    requires prev == PreviousResult(world, k)
    modifies failover
    ensures steps == LoopSteps(req, world, k) && aborts == k + |LoopAborts(req, world, k)|
    ensures fr == ResultAfter(req, world, k)
    ensures retry == Again(req, world, k, account, old(failover.Now()))
    ensures retry ==> failover.Now() == F.HandleError(old(failover.Now()), account, fr.statusCode).0
    ensures !retry ==> terminal == Halted(req, world, k)
  {
    if !req.bodyEmpty && req.capability.IsChat() && !world.requestConverts(k) {
      fr := prev.(statusCode := 400, bodyEmpty := false);
      return [Unconverted], k, fr, true, false;
    }
    if !world.evidenceAck(k).Acknowledged() {
      var acked := world.abortAck(k).Acknowledged();
      steps := [Evidenced(false), Aborted(NoCharge, acked)];
      fr := prev.(statusCode := 503, bodyEmpty := false);
      return steps, k + 1, fr, true, false;
    }
    var ends;
    ends, aborts, fr, terminal, retry := AfterCall(req, world, k, account, failover);
    steps := [Evidenced(true), Called(world.forward(k))] + ends;
  }

  // ---- Settlement ----

  /** The checks on the response body. */
  method CheckResponse(req: Request, world: World, steps0: seq<Step>, aborts0: nat,
                       fr0: ForwardResult, terminal0: bool)
    returns (steps: seq<Step>, aborts: nat, fr: ForwardResult, terminal: bool)
    ensures var fails := CheckFails(req, world, fr0);
            var ds := if fails then [Unknown] else [];
            && steps == steps0 + AbortSteps(world, aborts0, ds) && aborts == aborts0 + |ds|
            && fr == (if fails then fr0.(statusCode := 502) else fr0)
            && terminal == (terminal0 || fails)
  {
    steps, aborts, fr, terminal := steps0, aborts0, fr0, terminal0;
    if (!req.isStream || fr.statusCode >= 400) && !fr.bodyEmpty && ResponseFails(req, world, fr.statusCode) {
      var abort := Aborted(Unknown, world.abortAck(aborts).Acknowledged());
      fr := fr.(statusCode := 502);
      steps, aborts, terminal := steps + [abort], aborts + 1, true;
    }
  }

  /** The persistent media task: its state is saved, and a running one defers the usage. */
  method PersistMedia(req: Request, world: World, steps0: seq<Step>, aborts0: nat, media: bool,
                      fr: ForwardResult, terminal0: bool)
    returns (steps: seq<Step>, aborts: nat, terminal: bool, defer: bool)
    ensures var lost := TaskLost(req, world, media);
            var ds := if lost then [Unknown] else [];
            && steps == steps0 + AbortSteps(world, aborts0, ds) && aborts == aborts0 + |ds|
            && terminal == (terminal0 || lost)
    ensures defer <==> && req.persistentCreate && media && world.mediaAccepted && world.mediaRunning
                       && !terminal0 && fr.statusCode < 400
  {
    steps, aborts, terminal, defer := steps0, aborts0, terminal0, false;
    if req.persistentCreate && media {
      var failed := terminal || fr.statusCode >= 400;
      if !world.mediaAccepted {
        var abort := Aborted(Unknown, world.abortAck(aborts).Acknowledged());
        steps, aborts, terminal := steps + [abort], aborts + 1, true;
      } else {
        defer := !failed && world.mediaRunning;
      }
    }
  }

  /** Catalog and token-count calls release their hold instead of reporting usage. */
  method ReleaseControl(req: Request, world: World, steps0: seq<Step>, aborts0: nat,
                        fr: ForwardResult, terminal0: bool)
    returns (steps: seq<Step>, terminal: bool)
    ensures var releases := req.capability.NonBillable() && !terminal0 && Success(fr.statusCode);
            && steps == steps0 + AbortSteps(world, aborts0, if releases then [NoCharge] else [])
            && terminal == (terminal0 || (releases && world.abortAck(aborts0).Acknowledged()))
  {
    steps, terminal := steps0, terminal0;
    if req.capability.NonBillable() && !terminal && Success(fr.statusCode) {
      var abort := Aborted(NoCharge, world.abortAck(aborts0).Acknowledged());
      steps, terminal := steps + [abort], abort.acked;
    }
  }

  /** The usage report: into the outbox, or to the Platform at once when that fails. */
  method ReportUsage(req: Request, world: World, steps0: seq<Step>, fr: ForwardResult, terminal: bool, defer: bool)
    returns (steps: seq<Step>)
    ensures steps == steps0 + (if (!terminal || Late(req, fr)) && !defer then
                                 [if world.recordSucceeds then Recorded else Reported]
                               else if defer then [Deferred] else [])
  {
    var usage := if world.recordSucceeds then Recorded else Reported;
    steps := steps0;
    if (!terminal || Late(req, fr)) && !defer {
      steps := steps + [usage];
    } else if defer {
      steps := steps + [Deferred];
    }
  }

  /** The part of the settlement that may abort the lease. */
  method SettleAborts(req: Request, world: World, steps0: seq<Step>, aborts0: nat, media: bool,
                      fr0: ForwardResult, terminal0: bool)
    returns (steps: seq<Step>, fr: ForwardResult, terminal: bool, defer: bool)
    ensures steps == steps0 + AbortSteps(world, aborts0, ClosingAborts(req, world, media, fr0, terminal0))
    ensures terminal == (terminal0 || CheckFails(req, world, fr0) || TaskLost(req, world, media)
                         || (Releases(req, world, media, fr0, terminal0) && world.abortAck(aborts0).Acknowledged()))
    ensures defer == TaskRuns(req, world, media, fr0, terminal0) && Late(req, fr) == Late(req, fr0)
  {
    ghost var fails, lost := CheckFails(req, world, fr0), TaskLost(req, world, media);
    ghost var releases := Releases(req, world, media, fr0, terminal0);
    Decisions(req, world, media, fr0, terminal0);
    AbortsJoin(world, steps0, aborts0, if fails then [Unknown] else [], if lost then [Unknown] else [],
               if releases then [NoCharge] else []);
    var aborts;
    steps, aborts, fr, terminal := CheckResponse(req, world, steps0, aborts0, fr0, terminal0);
    steps, aborts, terminal, defer := PersistMedia(req, world, steps, aborts, media, fr, terminal);
    steps, terminal := ReleaseControl(req, world, steps, aborts, fr, terminal);
  }

  /** From the end of the loop to the end of the request. */
  method Settle(req: Request, world: World, steps0: seq<Step>, aborts0: nat, media: bool,
                fr0: ForwardResult, terminal0: bool)
    returns (steps: seq<Step>)
    ensures steps == steps0 + Closing(req, world, media, fr0, terminal0, aborts0)
  {
    var fr, terminal, defer;
    steps, fr, terminal, defer := SettleAborts(req, world, steps0, aborts0, media, fr0, terminal0);
    steps := ReportUsage(req, world, steps, fr, terminal, defer);
    ClosingIs(req, world, media, fr0, terminal0, aborts0, steps0);
  }

  // ---- The whole request ----

  /** One turn of the outer loop after a grant, and the settlement when it is the last. */
  method ServeLease(req: Request, world: World, k: nat, grant: DispatchResult,
                    failover: F.FailoverController, prev: ForwardResult)
    returns (steps: seq<Step>, fr: ForwardResult, retry: bool)
    requires prev == PreviousResult(world, k)
    modifies failover
    ensures steps == StepsOf(req, world, k, grant, old(failover.Now()))
    ensures retry == Again(req, world, k, grant.account, old(failover.Now()))
    ensures retry ==> fr == world.forward(k)
                      && failover.Now() == F.HandleError(old(failover.Now()), grant.account, fr.statusCode).0
  {
    var aborts, terminal;
    StepsOfIs(req, world, k, grant, failover.Now());
    steps, aborts, fr, terminal, retry := TryLease(req, world, k, grant.account, failover, prev);
    if retry {
      AgainSteps(req, world, k, grant.account, old(failover.Now()));
    } else {
      steps := Settle(req, world, steps, aborts, grant.hasMediaOperation, fr, terminal);
    }
  }

  /** The outer loop: leases that are retried, and the last one if a grant was to be had for it. */
  method ServeLeases(req: Request, world: World, ghost accounts: set<int>)
    returns (retried: seq<Attempt>, last: Option<Attempt>, calls: nat, waits: nat, transports: nat)
    requires forall n | world.dispatch(n).Granted() :: world.dispatch(n).account in accounts
    ensures EndedWith(req, world, retried, last, calls)
    ensures calls > 0 && Tolerated(world, calls - 1, waits, transports)
    ensures last.None? ==> GivesUp(world, calls, waits, transports)
    ensures |retried| <= 10 + 3 * |accounts|
    ensures waits <= 8 && transports <= 8 && calls == |retried| + waits + transports + 1
  {
    retried, calls, waits, transports := [], 0, 0, 0;
    var failover := new F.FailoverController();
    var prev, excluded: set<int>, sequence := NoResult, {}, 0;
    F.InitialBudget(10, 3, accounts);
    Starts(req, world);
    while true
      invariant fresh(failover) && Underway(req, world, retried, calls, prev, excluded, failover.Now())
      invariant sequence == |retried|
      invariant failover.switchCount <= failover.maxSwitches
      invariant 0 <= F.Budget(failover.Now(), accounts) <= 10 + 3 * |accounts| - |retried|
      invariant waits <= 8 && transports <= 8 && calls == |retried| + waits + transports
      invariant Tolerated(world, calls, waits, transports)
      decreases F.Budget(failover.Now(), accounts)
    {
      ghost var before, calls0 := failover.Now(), calls;
      var granted;
      granted, calls, waits, transports := AwaitGrant(world, calls, waits, transports);
      if granted.None? {
        StopsUngranted(req, world, retried, calls, calls0, prev, excluded, before);
        return retried, None, calls, waits, transports;
      }
      var grant := granted.value;
      var steps, fr, retry := ServeLease(req, world, |retried|, grant, failover, prev);
      var attempt := Attempt(grant.account, sequence, excluded, steps);
      if !retry {
        StopsGranted(req, world, retried, calls, calls0, prev, excluded, before, attempt);
        return retried, Some(attempt), calls, waits, transports;
      }
      ghost var same := GoesOn(req, world, retried, calls0, prev, excluded, before, calls, grant);
      assert attempt == same;
      F.ErrorSpends(before, accounts, grant.account, fr.statusCode);
      retried, sequence, prev, excluded := retried + [attempt], sequence + 1, fr, failover.failedAccounts;
    }
  }

  /**
   * `handle`, from the first dispatch to the usage report. For every Platform, Provider and clock:
   * every grant is a lease with the steps that the world calls for, and the request ends where it
   * must; each lease is settled soundly, and left open exactly when its request did not convert;
   * retries are safe; every answer but the last is a grant or, in time, one of at most eight waits and
   * eight transport failures; and over N accounts there are at most 11 + 3N leases.
   */
  method Handle(req: Request, world: World, ghost accounts: set<int>)
    returns (history: seq<Attempt>, calls: nat, waits: nat, transports: nat)
    requires forall n | world.dispatch(n).Granted() :: world.dispatch(n).account in accounts
    ensures Served(req, world, history, calls)
    ensures calls > 0 && if world.dispatch(calls - 1).Granted() then EndsThere(req, world, history)
                         else GivesUp(world, calls, waits, transports)
    ensures Tolerated(world, calls - 1, waits, transports) && waits <= 8 && transports <= 8
    ensures |history| <= 11 + 3 * |accounts|
    ensures calls == |history| + waits + transports + if world.dispatch(calls - 1).Granted() then 0 else 1
  {
    var last;
    history, last, calls, waits, transports := ServeLeases(req, world, accounts);
    EndsServed(req, world, history, last, calls);
    history := history + AsSeq(last);
  }
}
