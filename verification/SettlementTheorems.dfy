/** What the leases of a request keep, whatever the outside world answers. */
module SettlementTheorems {
  import opened Seqs
  import opened Dispatch
  import opened Forwarder
  import opened Lease
  import opened Settlement
  import F = Failover

  /** Neither incomplete nor malformed: what a previous, retried attempt leaves in `forward_result`. */
  predicate Harmless(r: ForwardResult) {
    !r.streamIncomplete && !r.malformedUsage
  }

  // ---- Steps by shape ----

  /** How a lease begins: with a call that answered `r`, or without one. */
  predicate Begins(head: seq<Step>, r: ForwardResult) {
    head == [Unconverted] || head == [Evidenced(false)] || head == [Evidenced(true), Called(r)]
  }

  predicate AllAborts(s: seq<Step>) {
    forall i | 0 <= i < |s| :: s[i].Aborted?
  }

  /** How it ends: with a usage event, a deferral or nothing more. */
  predicate Ends(tail: seq<Step>) {
    tail == [] || tail == [Recorded] || tail == [Reported] || tail == [Deferred]
  }

  predicate Billed(tail: seq<Step>) {
    tail == [Recorded] || tail == [Reported]
  }

  lemma ShapeIn(head: seq<Step>, aborts: seq<Step>, tail: seq<Step>, x: Step)
    ensures x in head + aborts + tail <==> x in head || x in aborts || x in tail
  {
    InConcat(head + aborts, tail, x);
    InConcat(head, aborts, x);
  }

  lemma ShapeUsage(head: seq<Step>, r: ForwardResult, aborts: seq<Step>, tail: seq<Step>)
    requires Begins(head, r) && AllAborts(aborts) && Ends(tail)
    ensures var s := head + aborts + tail; UsageOnce(s) && (HasUsage(s) <==> Billed(tail))
  {
    var s := head + aborts + tail;
    forall i | 0 <= i < |head + aborts| ensures !s[i].IsUsage() {
      assert s[i] == if i < |head| then head[i] else aborts[i - |head|];
    }
    if Billed(tail) { assert s[|s| - 1] == tail[0] && s[|s| - 1] in s; }
  }

  lemma ShapeCalls(head: seq<Step>, r: ForwardResult, aborts: seq<Step>, tail: seq<Step>, x: Step)
    requires Begins(head, r) && AllAborts(aborts) && Ends(tail)
    ensures var s := head + aborts + tail;
            x in s && x.Called? <==> |head| == 2 && x == Called(r)
  {
    ShapeIn(head, aborts, tail, x);
    if |head| == 2 { assert head[1] == Called(r); }
  }

  lemma ShapeCalled(req: Request, head: seq<Step>, r: ForwardResult, aborts: seq<Step>, tail: seq<Step>)
    requires Begins(head, r) && AllAborts(aborts) && Ends(tail)
    ensures var s := head + aborts + tail;
            && (CalledLate(req, s) <==> |head| == 2 && Late(req, r))
            && (CalledMalformed(s) <==> |head| == 2 && r.malformedUsage)
            && ((exists c :: c in s && c.Called?) <==> |head| == 2)
  {
    var s := head + aborts + tail;
    forall x ensures x in s && x.Called? <==> |head| == 2 && x == Called(r) {
      ShapeCalls(head, r, aborts, tail, x);
    }
    if |head| == 2 { assert Called(r) in s; }
  }

  lemma ShapeOther(head: seq<Step>, r: ForwardResult, aborts: seq<Step>, tail: seq<Step>, x: Step)
    requires Begins(head, r) && AllAborts(aborts) && Ends(tail)
    ensures var s := head + aborts + tail;
            && (x.Aborted? ==> (x in s <==> x in aborts))
            && (Deferred in s <==> tail == [Deferred])
            && (Unconverted in s <==> head == [Unconverted])
  {
    ShapeIn(head, aborts, tail, x);
    ShapeIn(head, aborts, tail, Deferred);
    ShapeIn(head, aborts, tail, Unconverted);
    if tail == [Deferred] { assert tail[0] == Deferred; }
    if head == [Unconverted] { assert head[0] == Unconverted; }
  }

  lemma ShapeAborted(head: seq<Step>, r: ForwardResult, aborts: seq<Step>, tail: seq<Step>)
    requires Begins(head, r) && AllAborts(aborts) && Ends(tail)
    ensures IsAborted(head + aborts + tail) <==> aborts != []
  {
    var s := head + aborts + tail;
    if aborts != [] {
      assert s[|head|] == aborts[0] && s[|head|] in s;
    }
    if x :| x in s && x.Aborted? { ShapeOther(head, r, aborts, tail, x); }
  }

  lemma ShapeEvidence(head: seq<Step>, r: ForwardResult, aborts: seq<Step>, tail: seq<Step>)
    requires Begins(head, r) && AllAborts(aborts) && Ends(tail)
    ensures EvidenceFirst(head + aborts + tail)
  {
    var s := head + aborts + tail;
    forall j | |head| <= j < |s| ensures !s[j].Called? {
      assert s[j] == if j < |head| + |aborts| then aborts[j - |head|] else tail[j - |head| - |aborts|];
    }
    assert forall j | 0 <= j < |head| :: s[j] == head[j];
  }

  /** The settlement in a few words: which aborts and endings go with which beginnings. */
  predicate Fits(req: Request, head: seq<Step>, r: ForwardResult, aborts: seq<Step>, tail: seq<Step>) {
    var late := |head| == 2 && Late(req, r);
    && (Aborted(NoCharge, true) in aborts ==> !Billed(tail))
    && (Aborted(Unknown, true) in aborts || Aborted(Unknown, false) in aborts ==> (Billed(tail) <==> late))
    && (late ==> Billed(tail))
    && (|head| == 2 && r.malformedUsage ==> !Billed(tail))
    && (Billed(tail) ==> |head| == 2)
    && (aborts != [] || tail != [] || head == [Unconverted])
    && (head == [Unconverted] && !req.persistentCreate ==> aborts == [] && tail == [])
  }

  lemma ShapeSound(req: Request, head: seq<Step>, r: ForwardResult, aborts: seq<Step>, tail: seq<Step>)
    requires Begins(head, r) && AllAborts(aborts) && Ends(tail) && Fits(req, head, r, aborts, tail)
    ensures WellKept(req, head + aborts + tail)
  {
    var s := head + aborts + tail;
    ShapeUsage(head, r, aborts, tail);
    ShapeCalled(req, head, r, aborts, tail);
    ShapeAborted(head, r, aborts, tail);
    ShapeEvidence(head, r, aborts, tail);
    ShapeOther(head, r, aborts, tail, Aborted(NoCharge, true));
    ShapeOther(head, r, aborts, tail, Aborted(Unknown, true));
    ShapeOther(head, r, aborts, tail, Aborted(Unknown, false));
    assert Sound(req, s);
  }

  // ---- The shape of every lease ----

  lemma AbortFacts(world: World, from: nat, ds: seq<AbortDisposition>)
    ensures var aborts := AbortSteps(world, from, ds);
            && AllAborts(aborts) && |aborts| == |ds|
            && (Aborted(Unknown, true) in aborts || Aborted(Unknown, false) in aborts ==> Unknown in ds)
            && (Aborted(NoCharge, true) in aborts ==>
                  exists i :: 0 <= i < |ds| && ds[i] == NoCharge && world.abortAck(from + i).Acknowledged())
  {
    var aborts := AbortSteps(world, from, ds);
    if Aborted(NoCharge, true) in aborts {
      var i :| 0 <= i < |aborts| && aborts[i] == Aborted(NoCharge, true);
      assert ds[i] == NoCharge && world.abortAck(from + i).Acknowledged();
    }
  }

  /** The aborts of the three parts of the settlement are numbered through. */
  lemma AbortsJoin(world: World, s: seq<Step>, from: nat,
                   a: seq<AbortDisposition>, b: seq<AbortDisposition>, c: seq<AbortDisposition>)
    ensures s + AbortSteps(world, from, a) + AbortSteps(world, from + |a|, b) + AbortSteps(world, from + |a| + |b|, c)
         == s + AbortSteps(world, from, a + b + c)
  {
  }

  /** The decisions of the settlement, each taken on what the parts before it left. */
  lemma Decisions(req: Request, world: World, media: bool, fr: ForwardResult, halted: bool)
    ensures var fails, lost := CheckFails(req, world, fr), TaskLost(req, world, media);
            var fr' := if fails then fr.(statusCode := 502) else fr;
            && (Releases(req, world, media, fr, halted)
                <==> req.capability.NonBillable() && !(halted || fails || lost) && Success(fr'.statusCode))
            && (TaskRuns(req, world, media, fr, halted)
                <==> && req.persistentCreate && media && world.mediaAccepted && world.mediaRunning
                     && !(halted || fails) && fr'.statusCode < 400)
            && (Late(req, fr') <==> Late(req, fr))
  {
  }

  function HeadOf(req: Request, world: World, k: nat): seq<Step> {
    if Unconvertible(req, world, k) then [Unconverted]
    else if CallsProvider(req, world, k) then [Evidenced(true), Called(world.forward(k))]
    else [Evidenced(false)]
  }

  function TailOf(req: Request, world: World, media: bool, fr: ForwardResult, halted: bool, from: nat): seq<Step> {
    if Bills(req, world, media, fr, halted, from) then [if world.recordSucceeds then Recorded else Reported]
    else if TaskRuns(req, world, media, fr, halted) then [Deferred]
    else []
  }

  lemma ClosingIs(req: Request, world: World, media: bool, fr: ForwardResult, halted: bool, from: nat, s: seq<Step>)
    ensures s + AbortSteps(world, from, ClosingAborts(req, world, media, fr, halted))
              + TailOf(req, world, media, fr, halted, from)
         == s + Closing(req, world, media, fr, halted, from)
  {
    Assoc(s, AbortSteps(world, from, ClosingAborts(req, world, media, fr, halted)),
          TailOf(req, world, media, fr, halted, from));
  }

  /** A last lease is a beginning, its aborts numbered through, and an ending. */
  lemma LastShape(req: Request, world: World, k: nat, media: bool)
    ensures var fr, halted, ds := ResultAfter(req, world, k), Halted(req, world, k), LoopAborts(req, world, k);
            LoopSteps(req, world, k) + Closing(req, world, media, fr, halted, k + |ds|)
            == HeadOf(req, world, k)
               + AbortSteps(world, k, ds + ClosingAborts(req, world, media, fr, halted))
               + TailOf(req, world, media, fr, halted, k + |ds|)
  {
    var fr, halted, ds := ResultAfter(req, world, k), Halted(req, world, k), LoopAborts(req, world, k);
    var head, tail := HeadOf(req, world, k), TailOf(req, world, media, fr, halted, k + |ds|);
    var more := ClosingAborts(req, world, media, fr, halted);
    AbortsTwo(world, k, ds, more);
    assert LoopSteps(req, world, k) == head + AbortSteps(world, k, ds);
    Regroup(head, AbortSteps(world, k, ds), AbortSteps(world, k + |ds|, more), tail);
  }

  lemma AbortsTwo(world: World, from: nat, a: seq<AbortDisposition>, b: seq<AbortDisposition>)
    ensures AbortSteps(world, from, a + b) == AbortSteps(world, from, a) + AbortSteps(world, from + |a|, b)
  {
  }

  lemma Regroup<T>(a: seq<T>, b: seq<T>, c: seq<T>, d: seq<T>)
    ensures (a + b) + (c + d) == a + (b + c) + d
  {
  }

  /** What the loop leaves to the settlement. */
  lemma LoopFacts(req: Request, world: World, k: nat)
    requires Harmless(PreviousResult(world, k))
    ensures var r, fr, ds := world.forward(k), ResultAfter(req, world, k), LoopAborts(req, world, k);
            var called := CallsProvider(req, world, k);
            && (Late(req, fr) <==> called && Late(req, r))
            && (called && (Late(req, r) || r.malformedUsage) ==> Unknown in ds)
            && (!called || ds != [] ==> Halted(req, world, k))
            && (Halted(req, world, k) ==> ds != [] || Unconvertible(req, world, k))
            && (NoCharge in ds ==> !Late(req, fr))
            && (Unconvertible(req, world, k) ==> ds == [] && fr.statusCode == 400)
  {
  }

  /** What the settlement adds. */
  lemma ClosingFacts(req: Request, world: World, media: bool, fr: ForwardResult, halted: bool, from: nat)
    ensures var more, tail := ClosingAborts(req, world, media, fr, halted), TailOf(req, world, media, fr, halted, from);
            var stopped := halted || CheckFails(req, world, fr) || TaskLost(req, world, media);
            && Ends(tail)
            && (Unknown in more ==> stopped)
            && (stopped ==> (Billed(tail) <==> Late(req, fr) && !TaskRuns(req, world, media, fr, halted))
                            && (halted || more != []))
            && (halted ==> !TaskRuns(req, world, media, fr, halted))
            && (tail == [] ==> stopped || more != [])
            && (NoCharge in more ==> more == [NoCharge] && !stopped)
            && (NoCharge in more && world.abortAck(from).Acknowledged() && !Late(req, fr) ==> !Billed(tail))
            && (halted && fr.statusCode == 400 && !req.persistentCreate && !Late(req, fr) ==> more == [] && tail == [])
  {
  }

  /** An acknowledged abort without charge goes with no usage event. */
  lemma NoChargeUnbilled(world: World, k: nat, ds: seq<AbortDisposition>, more: seq<AbortDisposition>,
                         late: bool, stopped: bool, billed: bool)
    requires NoCharge in ds ==> !late && stopped
    requires stopped ==> (billed ==> late)
    requires NoCharge in more ==> more == [NoCharge] && !stopped
    requires NoCharge in more && world.abortAck(k + |ds|).Acknowledged() && !late ==> !billed
    requires late ==> stopped
    ensures Aborted(NoCharge, true) in AbortSteps(world, k, ds + more) ==> !billed
  {
    var all := ds + more;
    AbortFacts(world, k, all);
    if Aborted(NoCharge, true) in AbortSteps(world, k, all) {
      var i :| 0 <= i < |all| && all[i] == NoCharge && world.abortAck(k + i).Acknowledged();
      if i < |ds| { assert ds[i] in ds; } else { assert more[i - |ds|] in more; }
    }
  }

  /** An unknown abort goes with a usage event exactly for late usage. */
  lemma UnknownBilled(world: World, k: nat, ds: seq<AbortDisposition>, more: seq<AbortDisposition>,
                      late: bool, stopped: bool, billed: bool)
    requires Unknown in ds || Unknown in more ==> stopped
    requires stopped ==> (billed <==> late)
    ensures var aborts := AbortSteps(world, k, ds + more);
            Aborted(Unknown, true) in aborts || Aborted(Unknown, false) in aborts ==> (billed <==> late)
  {
    AbortFacts(world, k, ds + more);
    InConcat(ds, more, Unknown);
  }

  lemma LastFits(req: Request, world: World, k: nat, media: bool, fr: ForwardResult, halted: bool,
                 ds: seq<AbortDisposition>, more: seq<AbortDisposition>, tail: seq<Step>)
    requires Harmless(PreviousResult(world, k))
    requires fr == ResultAfter(req, world, k) && halted == Halted(req, world, k) && ds == LoopAborts(req, world, k)
    requires more == ClosingAborts(req, world, media, fr, halted)
    requires tail == TailOf(req, world, media, fr, halted, k + |ds|)
    ensures Ends(tail) && AllAborts(AbortSteps(world, k, ds + more))
    ensures Fits(req, HeadOf(req, world, k), world.forward(k), AbortSteps(world, k, ds + more), tail)
  {
    AbortFacts(world, k, ds + more);
    LoopFacts(req, world, k);
    ClosingFacts(req, world, media, fr, halted, k + |ds|);
    var stopped := halted || CheckFails(req, world, fr) || TaskLost(req, world, media);
    LateIsHalted(req, world, k, media);
    NoChargeUnbilled(world, k, ds, more, Late(req, fr), stopped, Billed(tail));
    UnknownBilled(world, k, ds, more, Late(req, fr), stopped, Billed(tail));
  }

  lemma LateIsHalted(req: Request, world: World, k: nat, media: bool)
    requires Harmless(PreviousResult(world, k))
    ensures Late(req, ResultAfter(req, world, k)) ==> Halted(req, world, k)
    ensures var fr, halted := ResultAfter(req, world, k), Halted(req, world, k);
            Unknown in LoopAborts(req, world, k) ==> halted
  {
    LoopFacts(req, world, k);
  }

  lemma LastKept(req: Request, head: seq<Step>, r: ForwardResult, aborts: seq<Step>, tail: seq<Step>, s: seq<Step>)
    requires Begins(head, r) && AllAborts(aborts) && Ends(tail) && Fits(req, head, r, aborts, tail)
    requires s == head + aborts + tail
    ensures WellKept(req, s)
  {
    ShapeSound(req, head, r, aborts, tail);
  }

  lemma LastSound(req: Request, world: World, k: nat, media: bool, s: seq<Step>)
    requires Harmless(PreviousResult(world, k))
    requires s == LoopSteps(req, world, k)
                  + Closing(req, world, media, ResultAfter(req, world, k), Halted(req, world, k),
                            k + |LoopAborts(req, world, k)|)
    ensures WellKept(req, s)
  {
    var fr, halted, ds := ResultAfter(req, world, k), Halted(req, world, k), LoopAborts(req, world, k);
    var more, tail := ClosingAborts(req, world, media, fr, halted), TailOf(req, world, media, fr, halted, k + |ds|);
    LastShape(req, world, k, media);
    LastFits(req, world, k, media, fr, halted, ds, more, tail);
    LastKept(req, HeadOf(req, world, k), world.forward(k), AbortSteps(world, k, ds + more), tail, s);
  }

  lemma AgainSound(req: Request, world: World, k: nat, account: int, failover: F.State)
    requires Again(req, world, k, account, failover)
    ensures WellKept(req, LoopSteps(req, world, k))
  {
    AgainSteps(req, world, k, account, failover);
    RetriedIsSound(req, LoopSteps(req, world, k));
  }

  /** Whatever the outside world answers, every lease is settled soundly and called only after its evidence. */
  lemma StepsSound(req: Request, world: World, k: nat, grant: DispatchResult, failover: F.State)
    requires Harmless(PreviousResult(world, k))
    ensures WellKept(req, StepsOf(req, world, k, grant, failover))
  {
    StepsOfIs(req, world, k, grant, failover);
    if Again(req, world, k, grant.account, failover) {
      AgainSound(req, world, k, grant.account, failover);
    } else {
      LastSound(req, world, k, grant.hasMediaOperation, StepsOf(req, world, k, grant, failover));
    }
  }

  // ---- The whole request ----

  /** The last lease of the request is not one to retry. */
  predicate EndsThere(req: Request, world: World, h: seq<Attempt>) {
    && h != []
    && var k := |h| - 1; !Again(req, world, k, h[k].account, FailoverAfter(h[..k]))
  }

  /** Every lease so far was retried, and the loop variables say so. */
  ghost predicate Underway(req: Request, world: World, h: seq<Attempt>, calls: nat,
                           prev: ForwardResult, excluded: set<int>, failover: F.State) {
    && AllRetried(req, h) && Explained(req, world, h, calls)
    && prev == PreviousResult(world, |h|) && Harmless(prev)
    && failover == FailoverAfter(h) && excluded == failover.failed
  }

  lemma Starts(req: Request, world: World)
    ensures Underway(req, world, [], 0, NoResult, {}, F.Initial(10, 3))
  {
  }

  /** One more lease that is retried. */
  lemma GoesOn(req: Request, world: World, h: seq<Attempt>, calls0: nat, prev: ForwardResult, excluded: set<int>,
               failover: F.State, calls: nat, g: DispatchResult) returns (a: Attempt)
    requires Underway(req, world, h, calls0, prev, excluded, failover)
    requires Grants(world, calls) == Grants(world, calls0) + [g] && Again(req, world, |h|, g.account, failover)
    ensures a == Attempt(g.account, |h|, excluded, StepsOf(req, world, |h|, g, failover))
    ensures var fr := world.forward(|h|);
            var failover' := F.HandleError(failover, g.account, fr.statusCode).0;
            Underway(req, world, h + [a], calls, fr, failover'.failed, failover')
  {
    var k := |h|;
    AgainSteps(req, world, k, g.account, failover);
    a := Attempt(g.account, k, excluded, StepsOf(req, world, k, g, failover));
    assert a.steps == LoopSteps(req, world, k);
    RetriedSnoc(req, h, a);
    ExplainedSnoc(req, world, h, calls0, a, calls, g);
  }

  /** A retried lease ended with a clean rejection. */
  lemma RetriedClean(req: Request, world: World, h: seq<Attempt>, calls: nat, k: nat)
    requires Explained(req, world, h, calls) && k < |h| && Retried(req, h[k].steps)
    ensures !world.forward(k).streamIncomplete
  {
    var r := h[k].steps[1].result;
    assert LeaseExplained(req, world, h, k, Grants(world, calls)[k]);
    assert h[k].steps[1] == Called(r) && Called(r) in h[k].steps;
    CalledExactly(req, world, k, Grants(world, calls)[k], FailoverAfter(h[..k]), r);
  }

  /** The lease is left open exactly when its request did not convert, and called exactly when it may be. */
  ghost predicate LeaseServed(req: Request, world: World, k: nat, grant: DispatchResult, s: seq<Step>) {
    && (!Settled(s) <==> LeftOpen(req, world, k, grant))
    && (forall r :: Called(r) in s <==> CallsProvider(req, world, k) && r == world.forward(k))
  }

  lemma StepsAt(req: Request, world: World, h: seq<Attempt>, calls: nat, k: nat)
    requires Explained(req, world, h, calls) && k < |h|
    ensures h[k].steps == StepsOf(req, world, k, Grants(world, calls)[k], FailoverAfter(h[..k]))
  {
    assert LeaseExplained(req, world, h, k, Grants(world, calls)[k]);
  }

  lemma KeptAt(req: Request, h: seq<Attempt>, k: nat)
    requires WellSettled(req, h) && k < |h|
    ensures WellKept(req, h[k].steps) && (k < |h| - 1 ==> Retried(req, h[k].steps))
  {
  }

  /** The lease before, if any, ended with a clean rejection. */
  lemma CleanBefore(req: Request, world: World, h: seq<Attempt>, calls: nat, k: nat)
    requires Explained(req, world, h, calls) && k < |h| && (k > 0 ==> Retried(req, h[k - 1].steps))
    ensures !PreviousResult(world, k).streamIncomplete
  {
    if k > 0 { RetriedClean(req, world, h, calls, k - 1); }
  }

  lemma LeaseIsServed(req: Request, world: World, k: nat, grant: DispatchResult, failover: F.State, s: seq<Step>)
    requires s == StepsOf(req, world, k, grant, failover)
    requires WellKept(req, s) && !PreviousResult(world, k).streamIncomplete
    ensures LeaseServed(req, world, k, grant, s)
  {
    OpenExactly(req, world, k, grant, failover, s);
    forall r ensures Called(r) in s <==> CallsProvider(req, world, k) && r == world.forward(k) {
      CalledExactly(req, world, k, grant, failover, r);
    }
  }

  /** A request as it ends: every grant is a lease with the steps that the world calls for, settled soundly. */
  ghost predicate Served(req: Request, world: World, h: seq<Attempt>, calls: nat) {
    && Explained(req, world, h, calls)
    && WellSettled(req, h)
    && forall k | 0 <= k < |h| :: LeaseServed(req, world, k, Grants(world, calls)[k], h[k].steps)
  }

  lemma IsServed(req: Request, world: World, h: seq<Attempt>, calls: nat)
    requires Explained(req, world, h, calls) && WellSettled(req, h)
    ensures Served(req, world, h, calls)
  {
    forall k | 0 <= k < |h| ensures LeaseServed(req, world, k, Grants(world, calls)[k], h[k].steps) {
      KeptAt(req, h, k);
      if k > 0 { KeptAt(req, h, k - 1); }
      CleanBefore(req, world, h, calls, k);
      StepsAt(req, world, h, calls, k);
      LeaseIsServed(req, world, k, Grants(world, calls)[k], FailoverAfter(h[..k]), h[k].steps);
    }
  }

  /** These leases were retried, and then there was no other grant, or a last lease. */
  ghost predicate EndedFrom(req: Request, world: World, h: seq<Attempt>, last: Option<Attempt>, calls: nat,
                            calls0: nat, prev: ForwardResult, excluded: set<int>, failover: F.State) {
    && Underway(req, world, h, calls0, prev, excluded, failover) && calls > 0
    && var g := world.dispatch(calls - 1);
       match last
       case None => !g.Granted() && Grants(world, calls) == Grants(world, calls0)
       case Some(a) =>
         && g.Granted() && Grants(world, calls) == Grants(world, calls0) + [g]
         && !Again(req, world, |h|, g.account, failover)
         && a == Attempt(g.account, |h|, excluded, StepsOf(req, world, |h|, g, failover))
  }

  ghost predicate EndedWith(req: Request, world: World, h: seq<Attempt>, last: Option<Attempt>, calls: nat) {
    exists calls0, prev, excluded, failover :: EndedFrom(req, world, h, last, calls, calls0, prev, excluded, failover)
  }

  lemma StopsUngranted(req: Request, world: World, h: seq<Attempt>, calls: nat, calls0: nat, prev: ForwardResult,
                       excluded: set<int>, failover: F.State)
    requires Underway(req, world, h, calls0, prev, excluded, failover)
    requires calls > 0 && !world.dispatch(calls - 1).Granted() && Grants(world, calls) == Grants(world, calls0) + []
    ensures EndedWith(req, world, h, None, calls)
  {
    assert EndedFrom(req, world, h, None, calls, calls0, prev, excluded, failover);
  }

  lemma StopsGranted(req: Request, world: World, h: seq<Attempt>, calls: nat, calls0: nat, prev: ForwardResult,
                     excluded: set<int>, failover: F.State, a: Attempt)
    requires Underway(req, world, h, calls0, prev, excluded, failover)
    requires calls > 0 && world.dispatch(calls - 1).Granted()
    requires Grants(world, calls) == Grants(world, calls0) + [world.dispatch(calls - 1)]
    requires !Again(req, world, |h|, world.dispatch(calls - 1).account, failover)
    requires a == Attempt(world.dispatch(calls - 1).account, |h|, excluded,
                          StepsOf(req, world, |h|, world.dispatch(calls - 1), failover))
    ensures EndedWith(req, world, h, Some(a), calls)
  {
    assert EndedFrom(req, world, h, Some(a), calls, calls0, prev, excluded, failover);
  }

  lemma EndsUngranted(req: Request, world: World, h: seq<Attempt>, calls: nat, calls0: nat, prev: ForwardResult,
                      excluded: set<int>, failover: F.State)
    requires EndedFrom(req, world, h, None, calls, calls0, prev, excluded, failover)
    ensures Served(req, world, h, calls)
  {
    EndsSettled(req, h);
    IsServed(req, world, h, calls);
  }

  lemma LastWellSettled(req: Request, world: World, h: seq<Attempt>, a: Attempt, calls: nat, calls0: nat,
                        prev: ForwardResult, excluded: set<int>, failover: F.State)
    requires EndedFrom(req, world, h, Some(a), calls, calls0, prev, excluded, failover)
    ensures WellSettled(req, h + [a])
  {
    StepsSound(req, world, |h|, world.dispatch(calls - 1), failover);
    EndsSettledWith(req, h, a);
  }

  lemma LastExplained(req: Request, world: World, h: seq<Attempt>, a: Attempt, calls: nat, calls0: nat,
                      prev: ForwardResult, excluded: set<int>, failover: F.State)
    requires EndedFrom(req, world, h, Some(a), calls, calls0, prev, excluded, failover)
    ensures Explained(req, world, h + [a], calls) && EndsThere(req, world, h + [a])
  {
    ExplainedSnoc(req, world, h, calls0, a, calls, world.dispatch(calls - 1));
    assert (h + [a])[..|h|] == h;
  }

  lemma EndsGranted(req: Request, world: World, h: seq<Attempt>, a: Attempt, calls: nat, calls0: nat,
                    prev: ForwardResult, excluded: set<int>, failover: F.State)
    requires EndedFrom(req, world, h, Some(a), calls, calls0, prev, excluded, failover)
    ensures Served(req, world, h + [a], calls) && EndsThere(req, world, h + [a])
  {
    LastWellSettled(req, world, h, a, calls, calls0, prev, excluded, failover);
    LastExplained(req, world, h, a, calls, calls0, prev, excluded, failover);
    IsServed(req, world, h + [a], calls);
  }

  /** A request ends well settled, without another grant or with a last lease that is not one to retry. */
  lemma EndsServed(req: Request, world: World, h: seq<Attempt>, last: Option<Attempt>, calls: nat)
    requires EndedWith(req, world, h, last, calls)
    ensures Served(req, world, h + AsSeq(last), calls)
    ensures last.Some? ==> EndsThere(req, world, h + AsSeq(last))
  {
    var calls0, prev, excluded, failover :| EndedFrom(req, world, h, last, calls, calls0, prev, excluded, failover);
    match last {
      case None =>
        EndsUngranted(req, world, h, calls, calls0, prev, excluded, failover);
        assert h + [] == h;
      case Some(a) => EndsGranted(req, world, h, a, calls, calls0, prev, excluded, failover);
    }
  }
}
