/** The collector as an object, and one pass of the reporter over it. */
module UsageReporter {
  import opened Seqs
  import opened Dispatch
  import opened Outbox
  import opened UsageOutbox

  datatype UsageEvent = UsageEvent(leaseToken: string, report: string)

  // ---- What one pass leaves behind ----

  /** The first `n` rows of a batch settled one after the other. */
  function PassOver<K, V>(settle: (Table<K, V>, K, Answer) -> Table<K, V>, t: Table<K, V>, batch: Table<K, V>,
                          answers: nat -> Answer, n: nat): Table<K, V>
    requires n <= |batch|
  {
    if n == 0 then t
    else settle(PassOver(settle, t, batch, answers, n - 1), batch[n - 1].key, answers(n - 1))
  }

  /** The rows of the batch that were answered with a retryable failure. */
  function Retained<K, V>(batch: Table<K, V>, answers: nat -> Answer, n: nat): (r: Table<K, V>)
    requires n <= |batch|
    ensures |r| <= n
  {
    if n == 0 then []
    else Retained(batch, answers, n - 1) + if VerdictOf(answers(n - 1)) == Kept then [batch[n - 1]] else []
  }

  /** Every answer but a retryable failure takes the row, and only it, out of the pending ones. */
  ghost predicate SettlesAt<K(!new), V(!new)>(settle: (Table<K, V>, K, Answer) -> Table<K, V>,
                                              t: Table<K, V>, key: K, a: Answer) {
    && Keyed(settle(t, key, a))
    && Pending(settle(t, key, a)) == if VerdictOf(a) == Kept then Pending(t) else Delete(Pending(t), key)
  }

  ghost predicate Settles<K(!new), V(!new)>(settle: (Table<K, V>, K, Answer) -> Table<K, V>) {
    forall t, key, a | Keyed(t) :: SettlesAt(settle, t, key, a)
  }

  lemma SettleSettles()
    ensures Settles(Settle)
  {
    forall t: Table<string, string>, key, a | Keyed(t) ensures SettlesAt(Settle, t, key, a) {
      SettleKeeps(t, key, a, key);
      PendingDelete(t, key);
      PendingMark(t, key, a.errorCode);
    }
  }

  lemma {:induction false} PassKeyed<K(!new), V(!new)>(settle: (Table<K, V>, K, Answer) -> Table<K, V>, t: Table<K, V>,
                                           batch: Table<K, V>, answers: nat -> Answer, n: nat)
    requires Settles(settle) && Keyed(t) && n <= |batch|
    ensures Keyed(PassOver(settle, t, batch, answers, n))
  {
    if n > 0 {
      PassKeyed(settle, t, batch, answers, n - 1);
      assert SettlesAt(settle, PassOver(settle, t, batch, answers, n - 1), batch[n - 1].key, answers(n - 1));
    }
  }

  /** One settled or kept row between the retained ones and the rest. */
  lemma OneLeaves<K, V>(kept: Table<K, V>, row: Row<K, V>, rest: Table<K, V>, v: Verdict)
    requires Keyed(kept + ([row] + rest))
    ensures (if v == Kept then kept + ([row] + rest) else Delete(kept + ([row] + rest), row.key))
         == (kept + if v == Kept then [row] else []) + rest
  {
    if v == Kept {
      Assoc(kept, [row], rest);
    } else {
      DeleteOne(kept, row, rest);
      assert kept + [] == kept;
    }
  }

  /** One row settled or kept. */
  lemma StepLeaves<K(!new), V(!new)>(settle: (Table<K, V>, K, Answer) -> Table<K, V>, now: Table<K, V>,
                                     kept: Table<K, V>, row: Row<K, V>, rest: Table<K, V>, a: Answer)
    requires Settles(settle) && Keyed(now) && Pending(now) == kept + ([row] + rest)
    ensures Pending(settle(now, row.key, a)) == (kept + if VerdictOf(a) == Kept then [row] else []) + rest
  {
    PendingKeyed(now);
    OneLeaves(kept, row, rest, VerdictOf(a));
    assert SettlesAt(settle, now, row.key, a);
  }

  lemma NextRow<K, V>(t: Table<K, V>, limit: nat, n: nat)
    requires 0 < n <= |Batch(t, limit)|
    ensures n <= |Pending(t)| && Pending(t)[n - 1..] == [Batch(t, limit)[n - 1]] + Pending(t)[n..]
  {
  }

  /**
   * After a pass the retryable rows of the batch are still pending, in order, in front of the rows
   * that the batch did not reach; every other row of the batch is settled.
   */
  lemma {:induction false} PassLeaves<K(!new), V(!new)>(settle: (Table<K, V>, K, Answer) -> Table<K, V>, t: Table<K, V>,
                                            answers: nat -> Answer, limit: nat, n: nat)
    requires Settles(settle) && Keyed(t) && n <= |Batch(t, limit)|
    ensures Pending(PassOver(settle, t, Batch(t, limit), answers, n))
         == Retained(Batch(t, limit), answers, n) + Pending(t)[n..]
  {
    if n > 0 {
      var batch, waiting := Batch(t, limit), Pending(t);
      PassLeaves(settle, t, answers, limit, n - 1);
      PassKeyed(settle, t, batch, answers, n - 1);
      NextRow(t, limit, n);
      StepLeaves(settle, PassOver(settle, t, batch, answers, n - 1), Retained(batch, answers, n - 1),
                 batch[n - 1], waiting[n..], answers(n - 1));
    }
  }

  function AfterPass(t: Table<string, string>, answers: nat -> Answer): Table<string, string> {
    PassOver(Settle, t, Batch(t, PEEK_LIMIT), answers, |Batch(t, PEEK_LIMIT)|)
  }

  /** The steps of a pass: look at the table, then report with the given answers. */
  function PassOps(answers: nat -> Answer, n: nat): seq<Op> {
    if n == 0 then [Peek] else PassOps(answers, n - 1) + [Report(answers(n - 1))]
  }

  function RunFrom(s: State, ops: seq<Op>): State {
    if ops == [] then s else Step(RunFrom(s, ops[..|ops| - 1]), ops[|ops| - 1])
  }

  lemma {:induction false} RunContinues(ops: seq<Op>, more: seq<Op>)
    ensures Run(ops + more) == RunFrom(Run(ops), more)
  {
    if more == [] {
      assert ops + more == ops;
    } else {
      assert (ops + more)[..|ops + more| - 1] == ops + more[..|more| - 1];
      RunContinues(ops, more[..|more| - 1]);
    }
  }

  lemma RunFromSnoc(s: State, ops: seq<Op>, op: Op)
    ensures RunFrom(s, ops + [op]) == Step(RunFrom(s, ops), op)
  {
    assert (ops + [op])[..|ops|] == ops;
  }

  lemma ReportNext(t: Table<string, string>, batch: Table<string, string>, k: nat, answer: Answer)
    requires k < |batch|
    ensures Step(State(t, batch[k..]), Report(answer)) == State(Settle(t, batch[k].key, answer), batch[k + 1..])
  {
  }

  lemma {:induction false} PassSteps(t: Table<string, string>, batch: Table<string, string>, answers: nat -> Answer,
                                     n: nat)
    requires batch == Batch(t, PEEK_LIMIT) && n <= |batch|
    ensures RunFrom(State(t, []), PassOps(answers, n))
         == State(PassOver(Settle, t, batch, answers, n), batch[n..])
  {
    if n == 0 {
      RunFromSnoc(State(t, []), [], Peek);
    } else {
      PassSteps(t, batch, answers, n - 1);
      ReportNext(PassOver(Settle, t, batch, answers, n - 1), batch, n - 1, answers(n - 1));
      RunFromSnoc(State(t, []), PassOps(answers, n - 1), Report(answers(n - 1)));
    }
  }

  /** A pass is a run of those steps, so that everything proved of all runs holds across passes. */
  lemma PassIsRun(ops: seq<Op>, answers: nat -> Answer)
    requires Run(ops).batch == []
    ensures var t := Run(ops).table;
            Run(ops + PassOps(answers, |Batch(t, PEEK_LIMIT)|)) == State(AfterPass(t, answers), [])
  {
    var t := Run(ops).table;
    var batch := Batch(t, PEEK_LIMIT);
    RunContinues(ops, PassOps(answers, |batch|));
    PassSteps(t, batch, answers, |batch|);
  }

  // ---- Any number of passes ----

  /** How many rows of its batch a pass settles. */
  function SettledBy(t: Table<string, string>, answers: nat -> Answer): (n: nat)
    ensures n <= PEEK_LIMIT
  {
    var batch := Batch(t, PEEK_LIMIT);
    |batch| - |Retained(batch, answers, |batch|)|
  }

  /** The table after some passes, one after the other. */
  function Passes(t: Table<string, string>, rounds: seq<nat -> Answer>): Table<string, string> {
    if rounds == [] then t else AfterPass(Passes(t, rounds[..|rounds| - 1]), rounds[|rounds| - 1])
  }

  function SettledIn(t: Table<string, string>, rounds: seq<nat -> Answer>): nat {
    if rounds == [] then 0
    else
      var n := |rounds| - 1;
      SettledIn(t, rounds[..n]) + SettledBy(Passes(t, rounds[..n]), rounds[n])
  }

  /** A pass moves a lease behind its batch forward by the rows it settles. */
  lemma PassMoves(t: Table<string, string>, answers: nat -> Answer, k: nat)
    requires Keyed(t) && PEEK_LIMIT <= k < |Pending(t)|
    ensures Keyed(AfterPass(t, answers))
    ensures var place := k - SettledBy(t, answers);
            place < |Pending(AfterPass(t, answers))| && Pending(AfterPass(t, answers))[place] == Pending(t)[k]
  {
    SettleSettles();
    var batch, waiting := Batch(t, PEEK_LIMIT), Pending(t);
    PassLeaves(Settle, t, answers, PEEK_LIMIT, |batch|);
    PassKeyed(Settle, t, batch, answers, |batch|);
    var kept := Retained(batch, answers, |batch|);
    assert (kept + waiting[PEEK_LIMIT..])[k - SettledBy(t, answers)] == waiting[k];
  }

  /** The row is pending, and has moved forward by so many places from the k-th. */
  predicate Moved(t: Table<string, string>, row: Row<string, string>, k: nat, settled: nat) {
    Keyed(t) && settled <= k && k - settled < |Pending(t)| && Pending(t)[k - settled] == row
  }

  lemma MovesOn(t: Table<string, string>, row: Row<string, string>, k: nat, settled: nat, answers: nat -> Answer)
    requires Moved(t, row, k, settled) && settled + PEEK_LIMIT <= k
    ensures Moved(AfterPass(t, answers), row, k, settled + SettledBy(t, answers))
  {
    PassMoves(t, answers, k - settled);
  }

  /** The passes but for the last one left the k-th lease behind every batch. */
  predicate Unreached(t: Table<string, string>, rounds: seq<nat -> Answer>, k: nat) {
    rounds == [] || SettledIn(t, rounds[..|rounds| - 1]) + PEEK_LIMIT <= k
  }

  lemma UnreachedBefore(t: Table<string, string>, rounds: seq<nat -> Answer>, k: nat)
    requires rounds != [] && Unreached(t, rounds, k)
    ensures Unreached(t, rounds[..|rounds| - 1], k)
  {
    var before := rounds[..|rounds| - 1];
    if before != [] { assert SettledIn(t, before[..|before| - 1]) <= SettledIn(t, before); }
  }

  lemma {:induction false} PassesMove(t: Table<string, string>, rounds: seq<nat -> Answer>, k: nat)
    requires Keyed(t) && k < |Pending(t)| && Unreached(t, rounds, k)
    ensures Moved(Passes(t, rounds), Pending(t)[k], k, SettledIn(t, rounds))
  {
    if rounds != [] {
      var n := |rounds| - 1;
      UnreachedBefore(t, rounds, k);
      PassesMove(t, rounds[..n], k);
      MovesOn(Passes(t, rounds[..n]), Pending(t)[k], k, SettledIn(t, rounds[..n]), rounds[n]);
    }
  }

  /** The pending rows of a batch are the first ones. */
  lemma InBatchExactly(t: Table<string, string>, place: nat)
    requires Keyed(t) && place < |Pending(t)|
    ensures Pending(t)[place] in Batch(t, PEEK_LIMIT) <==> place < PEEK_LIMIT
  {
    PendingKeyed(t);
    if place < PEEK_LIMIT { assert Batch(t, PEEK_LIMIT)[place] == Pending(t)[place]; }
  }

  lemma MovedInBatch(t: Table<string, string>, row: Row<string, string>, k: nat, settled: nat)
    requires Moved(t, row, k, settled)
    ensures row in Batch(t, PEEK_LIMIT) <==> k < settled + PEEK_LIMIT
  {
    InBatchExactly(t, k - settled);
  }

  /**
   * A lease that no pass has reached yet is in the next batch exactly when the passes so far have
   * settled enough of the leases before it.
   */
  lemma NextPassReaches(t: Table<string, string>, rounds: seq<nat -> Answer>, k: nat)
    requires Keyed(t) && k < |Pending(t)| && Unreached(t, rounds, k)
    ensures Pending(t)[k] in Batch(Passes(t, rounds), PEEK_LIMIT) <==> k < SettledIn(t, rounds) + PEEK_LIMIT
  {
    PassesMove(t, rounds, k);
    MovedInBatch(Passes(t, rounds), Pending(t)[k], k, SettledIn(t, rounds));
  }

  lemma {:induction false} AllRetained<K, V>(batch: Table<K, V>, answers: nat -> Answer, n: nat)
    requires n <= |batch| && forall i: nat :: VerdictOf(answers(i)) == Kept
    ensures Retained(batch, answers, n) == batch[..n]
  {
    if n > 0 { AllRetained(batch, answers, n - 1); }
  }

  lemma {:induction false} NothingSettled(t: Table<string, string>, rounds: seq<nat -> Answer>)
    requires forall answers, i: nat | answers in rounds :: VerdictOf(answers(i)) == Kept
    ensures SettledIn(t, rounds) == 0
  {
    if rounds != [] {
      var n := |rounds| - 1;
      NothingSettled(t, rounds[..n]);
      var batch := Batch(Passes(t, rounds[..n]), PEEK_LIMIT);
      AllRetained(batch, rounds[n], |batch|);
    }
  }

  /** As long as every answer is a retryable failure, no pass ever reaches a lease behind the first hundred. */
  lemma StuckForever(t: Table<string, string>, rounds: seq<nat -> Answer>, k: nat)
    requires Keyed(t) && PEEK_LIMIT <= k < |Pending(t)|
    requires forall answers, i: nat | answers in rounds :: VerdictOf(answers(i)) == Kept
    ensures Pending(t)[k] !in Batch(Passes(t, rounds), PEEK_LIMIT)
  {
    NothingSettled(t, rounds);
    if rounds != [] { NothingSettled(t, rounds[..|rounds| - 1]); }
    NextPassReaches(t, rounds, k);
  }

  // ---- Evidence: settled rows are never deleted ----

  type EvidenceKey = (string, string)
  type EvidenceValue = (string, string)

  function SettleEvidence(t: Table<EvidenceKey, EvidenceValue>, key: EvidenceKey, a: Answer)
    : Table<EvidenceKey, EvidenceValue>
  {
    match VerdictOf(a)
    case Removed => Mark(t, key, "")
    case PutAside => Mark(t, key, a.errorCode)
    case Kept => t
  }

  lemma EvidenceSettles()
    ensures Settles(SettleEvidence)
  {
    forall t: Table<EvidenceKey, EvidenceValue>, key, a | Keyed(t) ensures SettlesAt(SettleEvidence, t, key, a) {
      MarkKeeps(t, key, "", key);
      MarkKeeps(t, key, a.errorCode, key);
      PendingMark(t, key, "");
      PendingMark(t, key, a.errorCode);
    }
  }

  /** After a pass the retryable evidence of the batch is still pending, in front of what it did not reach. */
  lemma EvidencePassLeaves(t: Table<EvidenceKey, EvidenceValue>, answers: nat -> Answer)
    requires Keyed(t)
    ensures var batch := Batch(t, PEEK_LIMIT);
            Pending(PassOver(SettleEvidence, t, batch, answers, |batch|))
            == Retained(batch, answers, |batch|) + Pending(t)[|batch|..]
  {
    EvidenceSettles();
    PassLeaves(SettleEvidence, t, answers, PEEK_LIMIT, |Batch(t, PEEK_LIMIT)|);
  }

  // ---- The in-memory outbox ----

  /** `acknowledge` and `dead_letter` without a database: only a matching front element goes. */
  function DropFront(memory: seq<UsageEvent>, token: string): seq<UsageEvent> {
    if memory != [] && memory[0].leaseToken == token then memory[1..] else memory
  }

  function MemoryPass(memory: seq<UsageEvent>, batch: seq<UsageEvent>, answers: nat -> Answer, n: nat): seq<UsageEvent>
    requires n <= |batch|
  {
    if n == 0 then memory
    else
      var before := MemoryPass(memory, batch, answers, n - 1);
      if VerdictOf(answers(n - 1)) == Kept then before else DropFront(before, batch[n - 1].leaseToken)
  }

  /** How many reports were settled before the first that was not. */
  function Lead(answers: nat -> Answer, n: nat): (k: nat)
    ensures k <= n
  {
    if n == 0 then 0
    else if Lead(answers, n - 1) == n - 1 && VerdictOf(answers(n - 1)) != Kept then n
    else Lead(answers, n - 1)
  }

  predicate DistinctTokens(memory: seq<UsageEvent>) {
    forall i, j | 0 <= i < j < |memory| :: memory[i].leaseToken != memory[j].leaseToken
  }

  /** How many events a pass takes off the front: a settled one does if its lease is that of the front. */
  function Popped(memory: seq<UsageEvent>, answers: nat -> Answer, n: nat): (k: nat)
    requires n <= |memory|
    ensures k <= n
  {
    if n == 0 then 0
    else
      var k := Popped(memory, answers, n - 1);
      if VerdictOf(answers(n - 1)) != Kept && memory[k].leaseToken == memory[n - 1].leaseToken then k + 1 else k
  }

  /** Reporting a batch is reporting the front of the whole memory. */
  lemma {:induction false} MemoryPrefix(memory: seq<UsageEvent>, batch: seq<UsageEvent>, answers: nat -> Answer, n: nat)
    requires batch <= memory && n <= |batch|
    ensures MemoryPass(memory, batch, answers, n) == MemoryPass(memory, memory, answers, n)
  {
    if n > 0 {
      MemoryPrefix(memory, batch, answers, n - 1);
    }
  }

  lemma {:induction false} WholePops(memory: seq<UsageEvent>, answers: nat -> Answer, n: nat)
    requires n <= |memory|
    ensures MemoryPass(memory, memory, answers, n) == memory[Popped(memory, answers, n)..]
  {
    if n > 0 { WholePops(memory, answers, n - 1); }
  }

  /** What is left of the memory at every point of a pass over a batch from its front. */
  lemma MemoryPops(memory: seq<UsageEvent>, batch: seq<UsageEvent>, answers: nat -> Answer, n: nat)
    requires batch <= memory && n <= |batch|
    ensures MemoryPass(memory, batch, answers, n) == memory[Popped(memory, answers, n)..]
  {
    MemoryPrefix(memory, batch, answers, n);
    WholePops(memory, answers, n);
  }

  lemma {:induction false} PopsLead(memory: seq<UsageEvent>, batch: seq<UsageEvent>, answers: nat -> Answer, n: nat)
    requires batch <= memory && DistinctTokens(batch) && n <= |batch|
    ensures Popped(memory, answers, n) == Lead(answers, n)
  {
    if n > 0 {
      PopsLead(memory, batch, answers, n - 1);
      assert memory[Lead(answers, n - 1)] == batch[Lead(answers, n - 1)] && memory[n - 1] == batch[n - 1];
    }
  }

  function Front(memory: seq<UsageEvent>, limit: nat): (batch: seq<UsageEvent>)
    ensures batch <= memory && |batch| <= limit
  {
    if |memory| <= limit then memory else memory[..limit]
  }

  /** Of the first `n` events reported, exactly the settled ones with only settled ones before them are gone. */
  predicate DropsLeadIn(memory: seq<UsageEvent>, answers: nat -> Answer, n: nat)
    requires n <= |Front(memory, PEEK_LIMIT)|
  {
    MemoryPass(memory, Front(memory, PEEK_LIMIT), answers, n) == memory[Lead(answers, n)..]
  }

  /** Whatever the answers, at every point of a pass. */
  ghost predicate DropsLead(memory: seq<UsageEvent>) {
    forall answers: nat -> Answer, n: nat | n <= |Front(memory, PEEK_LIMIT)| :: DropsLeadIn(memory, answers, n)
  }

  /** Whatever the answers, at the end of a pass. */
  ghost predicate PassDropsLead(memory: seq<UsageEvent>) {
    forall answers: nat -> Answer :: DropsLeadIn(memory, answers, |Front(memory, PEEK_LIMIT)|)
  }

  /** The answers that settle the first `i` events and the j-th, and no other. */
  function Skipping(i: nat, j: nat): nat -> Answer {
    (n: nat) =>
      if n < i || n == j then Answer(RpcAck(true, false, false), "") else Answer(RpcAck(false, false, true), "")
  }

  lemma {:induction false} TwinCounts(memory: seq<UsageEvent>, i: nat, j: nat, n: nat)
    requires i < j < |memory| && memory[i].leaseToken == memory[j].leaseToken && n <= |memory|
    ensures Lead(Skipping(i, j), n) == if n <= i then n else i
    ensures Popped(memory, Skipping(i, j), n) == if n <= i then n else if n <= j then i else i + 1
  {
    if n > 0 {
      TwinCounts(memory, i, j, n - 1);
      assert VerdictOf(Skipping(i, j)(n - 1)) == if n - 1 < i || n - 1 == j then Removed else Kept;
    }
  }

  /** Settling the second of two events of one lease drops the first. */
  lemma TwinDrops(memory: seq<UsageEvent>, i: nat, j: nat)
    requires i < j < |Front(memory, PEEK_LIMIT)| && memory[i].leaseToken == memory[j].leaseToken
    ensures !DropsLeadIn(memory, Skipping(i, j), |Front(memory, PEEK_LIMIT)|)
  {
    var batch := Front(memory, PEEK_LIMIT);
    TwinCounts(memory, i, j, |batch|);
    MemoryPops(memory, batch, Skipping(i, j), |batch|);
    assert |memory[i + 1..]| < |memory[i..]|;
  }

  /**
   * A settled event leaves the memory exactly when every event before it was settled too: that holds
   * at every point, and at the end, of every pass if and only if no two events of its batch are of
   * one lease.
   */
  lemma DropsLeadExactly(memory: seq<UsageEvent>)
    ensures DropsLead(memory) <==> DistinctTokens(Front(memory, PEEK_LIMIT))
    ensures PassDropsLead(memory) <==> DistinctTokens(Front(memory, PEEK_LIMIT))
  {
    var batch := Front(memory, PEEK_LIMIT);
    if DistinctTokens(batch) {
      forall answers: nat -> Answer, n: nat | n <= |batch| ensures DropsLeadIn(memory, answers, n) {
        MemoryPops(memory, batch, answers, n);
        PopsLead(memory, batch, answers, n);
      }
    } else {
      var i, j :| 0 <= i < j < |batch| && batch[i].leaseToken == batch[j].leaseToken;
      TwinDrops(memory, i, j);
    }
  }

  /** The smallest memory where it fails. */
  lemma SecondDropsFirst(first: UsageEvent, second: UsageEvent, answers: nat -> Answer)
    requires first.leaseToken == second.leaseToken && first != second
    requires VerdictOf(answers(0)) == Kept && VerdictOf(answers(1)) == Removed
    ensures MemoryPass([first, second], [first, second], answers, 2) == [second]
  {
    assert MemoryPass([first, second], [first, second], answers, 1) == [first, second];
  }

  // ---- The collector ----

  function EventOf(row: Row<string, string>): UsageEvent {
    UsageEvent(row.key, row.value)
  }

  class UsageCollector {
    const durable: bool
    var table: Table<string, string>
    var evidence: Table<EvidenceKey, EvidenceValue>
    var memory: seq<UsageEvent>

    ghost predicate Valid()
      reads this
    {
      Keyed(table) && Keyed(evidence)
    }

    constructor (durable: bool)
      ensures Valid() && this.durable == durable && table == [] && evidence == [] && memory == []
    {
      this.durable := durable;
      table, evidence, memory := [], [], [];
    }

    method Record(e: UsageEvent, now: int)
      requires Valid()
      modifies this
      ensures Valid() && evidence == old(evidence)
      ensures table == if durable then Insert(old(table), e.leaseToken, e.report, now) else old(table)
      ensures memory == if durable then old(memory) else old(memory) + [e]
    {
      if !durable {
        memory := memory + [e];
        return;
      }
      InsertKeeps(table, e.leaseToken, e.report, now, e.leaseToken);
      table := Insert(table, e.leaseToken, e.report, now);
    }

    method Peek(limit: nat) returns (events: seq<UsageEvent>)
      ensures events == if durable then Map(EventOf, Batch(table, limit)) else Front(memory, limit)
    {
      if !durable {
        return Front(memory, limit);
      }
      var rows := Batch(table, limit);
      events := [];
      for i := 0 to |rows|
        invariant events == Map(EventOf, rows[..i])
      {
        events := events + [EventOf(rows[i])];
      }
      assert rows[..|rows|] == rows;
    }

    method Acknowledge(token: string)
      requires Valid()
      modifies this
      ensures Valid() && evidence == old(evidence)
      ensures table == if durable then Delete(old(table), token) else old(table)
      ensures memory == if durable then old(memory) else DropFront(old(memory), token)
    {
      if !durable {
        memory := DropFront(memory, token);
        return;
      }
      DeleteKeeps(table, token, token);
      table := Delete(table, token);
    }

    method DeadLetter(token: string, errorCode: string)
      requires Valid()
      modifies this
      ensures Valid() && evidence == old(evidence)
      ensures table == if durable then Mark(old(table), token, errorCode) else old(table)
      ensures memory == if durable then old(memory) else DropFront(old(memory), token)
    {
      if !durable {
        memory := DropFront(memory, token);
        return;
      }
      MarkKeeps(table, token, errorCode, token);
      table := Mark(table, token, errorCode);
    }

    method RecordEvidence(token: string, stage: string, value: EvidenceValue, now: int)
      requires Valid()
      modifies this
      ensures Valid() && table == old(table) && memory == old(memory)
      ensures evidence == if durable then Insert(old(evidence), (token, stage), value, now) else old(evidence)
    {
      if durable {
        InsertKeeps(evidence, (token, stage), value, now, (token, stage));
        evidence := Insert(evidence, (token, stage), value, now);
      }
    }

    /** `acknowledge_evidence` (no error) and `dead_letter_evidence`. */
    method SettleEvidenceRow(key: EvidenceKey, error: string)
      requires Valid()
      modifies this
      ensures Valid() && table == old(table) && memory == old(memory)
      ensures evidence == if durable then Mark(old(evidence), key, error) else old(evidence)
    {
      if durable {
        MarkKeeps(evidence, key, error, key);
        evidence := Mark(evidence, key, error);
      }
    }
  }

  // ---- One pass ----

  /** What one answer does to an event of the collector. */
  method SettleOne(c: UsageCollector, token: string, answer: Answer)
    requires c.Valid()
    modifies c
    ensures c.Valid() && c.evidence == old(c.evidence)
    ensures c.table == if c.durable then Settle(old(c.table), token, answer) else old(c.table)
    ensures c.memory == if c.durable || VerdictOf(answer) == Kept then old(c.memory)
                        else DropFront(old(c.memory), token)
  {
    if answer.ack.Acknowledged() {
      c.Acknowledge(token);
    } else if !answer.ack.retryable {
      c.DeadLetter(token, answer.errorCode);
    }
  }

  /** The collector after `n` reports of a pass over these events. */
  predicate ReportedTo(durable: bool, table0: Table<string, string>, memory0: seq<UsageEvent>,
                       events: seq<UsageEvent>, answers: nat -> Answer, n: nat,
                       table: Table<string, string>, memory: seq<UsageEvent>)
    requires n <= |events| && (durable ==> |events| == |Batch(table0, PEEK_LIMIT)|)
  {
    if durable then table == PassOver(Settle, table0, Batch(table0, PEEK_LIMIT), answers, n) && memory == memory0
    else table == table0 && memory == MemoryPass(memory0, events, answers, n)
  }

  lemma ReportedNext(durable: bool, table0: Table<string, string>, memory0: seq<UsageEvent>, events: seq<UsageEvent>,
                     answers: nat -> Answer, n: nat, table: Table<string, string>, memory: seq<UsageEvent>)
    requires n < |events| && (durable ==> events == Map(EventOf, Batch(table0, PEEK_LIMIT)))
    requires ReportedTo(durable, table0, memory0, events, answers, n, table, memory)
    ensures var token := events[n].leaseToken;
            ReportedTo(durable, table0, memory0, events, answers, n + 1,
                       if durable then Settle(table, token, answers(n)) else table,
                       if durable || VerdictOf(answers(n)) == Kept then memory else DropFront(memory, token))
  {
    if durable {
      assert events[n].leaseToken == Batch(table0, PEEK_LIMIT)[n].key;
    }
  }

  /** One report of a pass. */
  method ReportOne(c: UsageCollector, events: seq<UsageEvent>, answers: nat -> Answer, i: nat,
                   ghost table0: Table<string, string>, ghost memory0: seq<UsageEvent>)
    requires c.Valid() && i < |events| && (c.durable ==> events == Map(EventOf, Batch(table0, PEEK_LIMIT)))
    requires ReportedTo(c.durable, table0, memory0, events, answers, i, c.table, c.memory)
    modifies c
    ensures c.Valid() && c.evidence == old(c.evidence)
    ensures ReportedTo(c.durable, table0, memory0, events, answers, i + 1, c.table, c.memory)
  {
    ReportedNext(c.durable, table0, memory0, events, answers, i, c.table, c.memory);
    SettleOne(c, events[i].leaseToken, answers(i));
  }

  /** The first half of a pass: every event of the batch is reported once, whatever became of those before. */
  method ReportUsage(c: UsageCollector, answers: nat -> Answer) returns (attempted: seq<UsageEvent>)
    requires c.Valid()
    modifies c
    ensures c.Valid() && c.evidence == old(c.evidence)
    ensures attempted == if c.durable then Map(EventOf, Batch(old(c.table), PEEK_LIMIT))
                         else Front(old(c.memory), PEEK_LIMIT)
    ensures ReportedTo(c.durable, old(c.table), old(c.memory), attempted, answers, |attempted|, c.table, c.memory)
  {
    var events := c.Peek(PEEK_LIMIT);
    attempted := [];
    for i := 0 to |events|
      invariant c.Valid() && c.evidence == old(c.evidence) && attempted == events[..i]
      invariant ReportedTo(c.durable, old(c.table), old(c.memory), events, answers, i, c.table, c.memory)
    {
      ReportOne(c, events, answers, i, old(c.table), old(c.memory));
      attempted := attempted + [events[i]];
    }
  }

  /** `peek_evidence`: without a database there is none. */
  function EvidenceBatch(durable: bool, t: Table<EvidenceKey, EvidenceValue>): Table<EvidenceKey, EvidenceValue> {
    if durable then Batch(t, PEEK_LIMIT) else []
  }

  function KeyOf(row: Row<EvidenceKey, EvidenceValue>): EvidenceKey {
    row.key
  }

  /** The second half: the same for the evidence rows. */
  method ReportEvidence(c: UsageCollector, answers: nat -> Answer) returns (attempted: seq<EvidenceKey>)
    requires c.Valid()
    modifies c
    ensures c.Valid() && c.table == old(c.table) && c.memory == old(c.memory)
    ensures var batch := EvidenceBatch(c.durable, old(c.evidence));
            && attempted == Map(KeyOf, batch)
            && c.evidence == PassOver(SettleEvidence, old(c.evidence), batch, answers, |batch|)
  {
    var batch := EvidenceBatch(c.durable, c.evidence);
    attempted := [];
    for i := 0 to |batch|
      invariant c.Valid() && c.table == old(c.table) && c.memory == old(c.memory)
      invariant attempted == Map(KeyOf, batch[..i])
      invariant c.evidence == PassOver(SettleEvidence, old(c.evidence), batch, answers, i)
    {
      var key, answer := batch[i].key, answers(i);
      attempted := attempted + [key];
      if answer.ack.Acknowledged() {
        c.SettleEvidenceRow(key, "");
      } else if !answer.ack.retryable {
        c.SettleEvidenceRow(key, answer.errorCode);
      }
    }
    assert batch[..|batch|] == batch;
  }

  /** A whole pass of `run_loop`. Without a waiting usage event, evidence is not looked at. */
  method RunPass(c: UsageCollector, answers: nat -> Answer, evidenceAnswers: nat -> Answer)
    returns (attempted: seq<UsageEvent>, evidenced: seq<EvidenceKey>)
    requires c.Valid()
    modifies c
    ensures c.Valid()
    ensures attempted == if c.durable then Map(EventOf, Batch(old(c.table), PEEK_LIMIT))
                         else Front(old(c.memory), PEEK_LIMIT)
    ensures ReportedTo(c.durable, old(c.table), old(c.memory), attempted, answers, |attempted|, c.table, c.memory)
    ensures var batch := if attempted == [] then [] else EvidenceBatch(c.durable, old(c.evidence));
            && evidenced == Map(KeyOf, batch)
            && c.evidence == PassOver(SettleEvidence, old(c.evidence), batch, evidenceAnswers, |batch|)
  {
    attempted := ReportUsage(c, answers);
    evidenced := [];
    if attempted != [] {
      evidenced := ReportEvidence(c, evidenceAnswers);
    }
  }
}
