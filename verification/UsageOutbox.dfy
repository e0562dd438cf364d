/**
 * The usage outbox and its reporter. A usage event is a lease token and its report, one value
 * that stands for all the other columns.
 */
module UsageOutbox {
  import opened Seqs
  import opened Outbox
  import opened Dispatch

  const PEEK_LIMIT := 100

  datatype Answer = Answer(ack: RpcAck, errorCode: string)

  datatype Verdict = Removed | PutAside | Kept

  function VerdictOf(a: Answer): Verdict {
    if a.ack.Acknowledged() then Removed else if !a.ack.retryable then PutAside else Kept
  }

  /** What the reporter does to the table after one report. */
  function Settle(t: Table<string, string>, token: string, a: Answer): Table<string, string> {
    match VerdictOf(a)
    case Removed => Delete(t, token)
    case PutAside => Mark(t, token, a.errorCode)
    case Kept => t
  }

  lemma SettleKeeps(t: Table<string, string>, token: string, a: Answer, other: string)
    requires Keyed(t)
    ensures Keyed(Settle(t, token, a))
    ensures StatusOf(Settle(t, token, a), other)
         == if other == token then After(StatusOf(t, token), VerdictOf(a)) else StatusOf(t, other)
  {
    DeleteKeeps(t, token, other);
    MarkKeeps(t, token, a.errorCode, other);
    FindIs(t, other);
  }

  // ---- What should become of one lease, from its own events alone ----

  datatype Event = Recorded(token: string, report: string) | Reported(token: string, report: string, verdict: Verdict)

  function After(s: Status<string>, v: Verdict): Status<string> {
    match v
    case Removed => Absent
    case PutAside => if s.Waiting? then Settled(s.value) else s
    case Kept => s
  }

  function Next(s: Status<string>, e: Event): Status<string> {
    match e
    case Recorded(_, report) => if s.Absent? then Waiting(report) else s
    case Reported(_, _, verdict) => After(s, verdict)
  }

  /** The first report recorded since the last removal, waiting or put aside. */
  function Fate(history: seq<Event>, token: string): Status<string> {
    if history == [] then Absent
    else
      var n := |history| - 1;
      var before := Fate(history[..n], token);
      if history[n].token == token then Next(before, history[n]) else before
  }

  // ---- Runs: handlers record, the reporter works through batches, the process may restart ----

  datatype Op =
    | Record(token: string, report: string, now: int)
    | Peek
    | Report(answer: Answer)
    | Restart

  /** The table survives a restart; the batch that the reporter still has to report does not. */
  datatype State = State(table: Table<string, string>, batch: Table<string, string>)

  function Step(s: State, op: Op): State {
    match op
    case Record(token, report, now) => s.(table := Insert(s.table, token, report, now))
    case Peek => if s.batch == [] then s.(batch := Batch(s.table, PEEK_LIMIT)) else s
    case Report(answer) =>
      if s.batch == [] then s else State(Settle(s.table, s.batch[0].key, answer), s.batch[1..])
    case Restart => s.(batch := [])
  }

  function Emits(s: State, op: Op): seq<Event> {
    match op
    case Record(token, report, _) => [Recorded(token, report)]
    case Report(answer) =>
      if s.batch == [] then [] else [Reported(s.batch[0].key, s.batch[0].value, VerdictOf(answer))]
    case _ => []
  }

  function Run(ops: seq<Op>): State {
    if ops == [] then State([], []) else Step(Run(ops[..|ops| - 1]), ops[|ops| - 1])
  }

  function History(ops: seq<Op>): seq<Event> {
    if ops == [] then []
    else History(ops[..|ops| - 1]) + Emits(Run(ops[..|ops| - 1]), ops[|ops| - 1])
  }

  /** Every report still to be made is of a row that waits with that very content. */
  ghost predicate Valid(s: State) {
    && Keyed(s.table) && Keyed(s.batch)
    && forall i | 0 <= i < |s.batch| :: StatusOf(s.table, s.batch[i].key) == Waiting(s.batch[i].value)
  }

  lemma PeekValid(t: Table<string, string>)
    requires Keyed(t)
    ensures Valid(State(t, Batch(t, PEEK_LIMIT)))
  {
    PendingKeyed(t);
    var batch := Batch(t, PEEK_LIMIT);
    forall i | 0 <= i < |batch| ensures StatusOf(t, batch[i].key) == Waiting(batch[i].value) {
      assert batch[i] == Pending(t)[i];
      var k :| 0 <= k < |t| && t[k] == batch[i];
      FindAt(t, k);
    }
  }

  lemma StepValid(s: State, op: Op)
    requires Valid(s)
    ensures Valid(Step(s, op))
  {
    match op
    case Record(token, report, now) =>
      InsertKeeps(s.table, token, report, now, token);
      forall i | 0 <= i < |s.batch|
        ensures StatusOf(Step(s, op).table, s.batch[i].key) == Waiting(s.batch[i].value)
      {
        InsertKeeps(s.table, token, report, now, s.batch[i].key);
      }
    case Peek => PeekValid(s.table);
    case Report(answer) =>
      if s.batch != [] {
        SettleKeeps(s.table, s.batch[0].key, answer, s.batch[0].key);
        forall i | 1 <= i < |s.batch|
          ensures StatusOf(Step(s, op).table, s.batch[i].key) == Waiting(s.batch[i].value)
        {
          SettleKeeps(s.table, s.batch[0].key, answer, s.batch[i].key);
        }
      }
    case Restart =>
  }

  lemma FateSnoc(history: seq<Event>, e: Event, token: string)
    ensures Fate(history + [e], token)
         == if e.token == token then Next(Fate(history, token), e) else Fate(history, token)
  {
    assert (history + [e])[..|history|] == history;
  }

  lemma StepFate(s: State, op: Op, history: seq<Event>, token: string)
    requires Valid(s) && StatusOf(s.table, token) == Fate(history, token)
    ensures StatusOf(Step(s, op).table, token) == Fate(history + Emits(s, op), token)
  {
    assert history + [] == history;
    match op
    case Record(key, report, now) =>
      InsertKeeps(s.table, key, report, now, token);
      FateSnoc(history, Recorded(key, report), token);
    case Report(answer) =>
      if s.batch != [] {
        SettleKeeps(s.table, s.batch[0].key, answer, token);
        FateSnoc(history, Emits(s, op)[0], token);
      }
    case _ =>
  }

  lemma {:induction false} RunValid(ops: seq<Op>)
    ensures Valid(Run(ops))
  {
    if ops != [] {
      RunValid(ops[..|ops| - 1]);
      StepValid(Run(ops[..|ops| - 1]), ops[|ops| - 1]);
    }
  }

  /** Conservation: after any run the table holds, for every lease, exactly what its own events call for. */
  lemma {:induction false} Conserves(ops: seq<Op>, token: string)
    ensures StatusOf(Run(ops).table, token) == Fate(History(ops), token)
  {
    if ops != [] {
      var before := ops[..|ops| - 1];
      Conserves(before, token);
      RunValid(before);
      StepFate(Run(before), ops[|ops| - 1], History(before), token);
    }
  }

  /** Only a waiting lease is reported, and with the report that was recorded for it first. */
  lemma {:induction false} ReportsAreDue(ops: seq<Op>, i: nat)
    requires i < |History(ops)| && History(ops)[i].Reported?
    ensures var e := History(ops)[i];
            Fate(History(ops)[..i], e.token) == Waiting(e.report)
  {
    var before, op := ops[..|ops| - 1], ops[|ops| - 1];
    if i < |History(before)| {
      ReportsAreDue(before, i);
      assert History(ops)[..i] == History(before)[..i];
    } else {
      var s := Run(before);
      RunValid(before);
      assert History(ops)[..i] == History(before);
      Conserves(before, s.batch[0].key);
    }
  }

  /** A recorded lease waits, is put aside, or was acknowledged since. */
  lemma {:induction false} RecordedIsAccounted(history: seq<Event>, i: nat)
    requires i < |history| && history[i].Recorded?
    ensures var token := history[i].token;
            || !Fate(history, token).Absent?
            || exists k | i < k < |history| :: history[k].token == token && history[k].Reported? && history[k].verdict.Removed?
  {
    var n, token := |history| - 1, history[i].token;
    if i < n {
      RecordedIsAccounted(history[..n], i);
      if Fate(history[..n], token).Absent? {
        var k :| i < k < n && history[..n][k].token == token && history[..n][k].Reported? && history[..n][k].verdict.Removed?;
        assert history[k] == history[..n][k];
      }
    }
  }

  lemma StepPutAside(s: State, op: Op, token: string)
    requires Valid(s) && StatusOf(s.table, token).Settled?
    ensures StatusOf(Step(s, op).table, token) == StatusOf(s.table, token)
  {
    if op.Record? {
      InsertKeeps(s.table, op.token, op.report, op.now, token);
    } else if op.Report? && s.batch != [] {
      SettleKeeps(s.table, s.batch[0].key, op.answer, token);
    }
  }

  /** A lease that was put aside stays so: nothing records it anew, and nothing reports it. */
  lemma {:induction false} PutAsideStays(ops: seq<Op>, more: seq<Op>, token: string)
    requires StatusOf(Run(ops).table, token).Settled?
    ensures StatusOf(Run(ops + more).table, token) == StatusOf(Run(ops).table, token)
    decreases |more|
  {
    if more == [] {
      assert ops + more == ops;
    } else {
      var less := more[..|more| - 1];
      PutAsideStays(ops, less, token);
      assert (ops + more)[..|ops + more| - 1] == ops + less;
      RunValid(ops + less);
      StepPutAside(Run(ops + less), more[|more| - 1], token);
    }
  }
}
