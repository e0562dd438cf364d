/**
 * The realtime bridge: two pump threads that share atomic counters and a `done` flag, modelled as
 * interleaved atomic steps. A schedule names, step by step, which thread moves and what the outside
 * world answers it, so a statement about every schedule is one about every interleaving.
 */
module Realtime {
  datatype Opcode = Text | Binary | Close | Control

  /** The answer to a step that asks: a received frame, a clock reading or the result of a send. */
  datatype Input = Input(size: int, opcode: Opcode, overtime: bool, sendOk: bool)

  /** Where a pump is between two atomic operations. */
  datatype Where =
    | Top
    | Receiving
    | Counting(size: nat, opcode: Opcode)
    | AddingBytes(size: nat, opcode: Opcode)
    | CheckingFrames(size: nat, opcode: Opcode)
    | TrippingCap(size: nat, opcode: Opcode)
    | TrippingDone(size: nat, opcode: Opcode)
    | CheckingDone(size: nat, opcode: Opcode)
    | Sending(size: nat, opcode: Opcode)
    | Exchanging
    | Recording
    | Leaving
    | Gone

  datatype Config = Config(firstSize: nat, maxBytes: int, maxFrames: int)

  /** The atomics, and what was forwarded in both directions together. */
  datatype Shared = Shared(
    done: bool, clientDisconnected: bool, frames: int, bytes: int, evidenceTaken: bool, capExceeded: bool,
    forwardedFrames: nat, forwardedBytes: nat, evidenceRecorded: nat)

  datatype Thread = Upstream | Client

  datatype State = State(shared: Shared, upstream: Where, client: Where)

  /** After the first client frame was sent upstream. */
  function Initial(c: Config): State {
    State(Shared(false, false, 1, c.firstSize, false, false, 1, c.firstSize, 0), Top, Top)
  }

  predicate Forwards(op: Opcode) {
    op == Text || op == Binary
  }

  function Received(s: Shared, t: Thread, i: Input): (Shared, Where) {
    if t == Client && (i.size < 0 || i.opcode == Close) then (s.(clientDisconnected := true), Leaving)
    else if i.size <= 0 || i.opcode == Close then (s, Leaving)
    else (s, Counting(i.size, i.opcode))
  }

  function Sent(s: Shared, t: Thread, size: nat, op: Opcode, i: Input): (Shared, Where) {
    if !Forwards(op) then (s, Top)
    else (s.(forwardedFrames := s.forwardedFrames + 1, forwardedBytes := s.forwardedBytes + size),
          if t == Upstream && i.sendOk then Exchanging else Top)
  }

  /** One atomic step of a pump of thread `t` that stands at `w`. */
  function Move(c: Config, s: Shared, t: Thread, w: Where, i: Input): (Shared, Where) {
    match w
    case Top => (s, if s.done then Leaving else Receiving)
    case Receiving => Received(s, t, i)
    case Counting(n, op) => (s.(frames := s.frames + 1), AddingBytes(n, op))
    case AddingBytes(n, op) =>
      (s.(bytes := s.bytes + n), if s.bytes + n > c.maxBytes then TrippingCap(n, op) else CheckingFrames(n, op))
    case CheckingFrames(n, op) =>
      (s, if s.frames > c.maxFrames || i.overtime then TrippingCap(n, op) else CheckingDone(n, op))
    case TrippingCap(n, op) => (s.(capExceeded := true), TrippingDone(n, op))
    case TrippingDone(n, op) => (s.(done := true), CheckingDone(n, op))
    case CheckingDone(n, op) => (s, if s.done then Leaving else Sending(n, op))
    case Sending(n, op) => Sent(s, t, n, op, i)
    case Exchanging => (s.(evidenceTaken := true), if s.evidenceTaken then Top else Recording)
    case Recording => (s.(evidenceRecorded := s.evidenceRecorded + 1), Top)
    case Leaving => (s.(done := true), Gone)
    case Gone => (s, Gone)
  }

  function Step(c: Config, s: State, t: Thread, i: Input): State {
    match t
    case Upstream => var (shared, w) := Move(c, s.shared, t, s.upstream, i); State(shared, w, s.client)
    case Client => var (shared, w) := Move(c, s.shared, t, s.client, i); State(shared, s.upstream, w)
  }

  /** A schedule: who moves, and with what answer. */
  function RunFrom(c: Config, s: State, schedule: seq<(Thread, Input)>): State {
    if schedule == [] then s
    else
      var last := schedule[|schedule| - 1];
      Step(c, RunFrom(c, s, schedule[..|schedule| - 1]), last.0, last.1)
  }

  function Run(c: Config, schedule: seq<(Thread, Input)>): State {
    RunFrom(c, Initial(c), schedule)
  }

  // ---- What every interleaving keeps ----

  /** Bytes of a frame that passed the byte cap but is not sent yet. */
  function Cleared(done: bool, w: Where): nat {
    if w.CheckingFrames? || w.Sending? || (w.CheckingDone? && !done) then w.size else 0
  }

  /** A frame counted but not yet past the frame cap. */
  function Counted(w: Where): nat {
    if w.AddingBytes? || w.CheckingFrames? || w.TrippingCap? || w.TrippingDone? then 1 else 0
  }

  /** A frame past the frame cap but not sent yet. */
  function Admitted(done: bool, w: Where): nat {
    if (w.CheckingDone? && !done) || w.Sending? then 1 else 0
  }

  function Max(a: int, b: int): int {
    if a > b then a else b
  }

  predicate BytesKept(c: Config, s: Shared, a: Where, b: Where) {
    var cleared := s.forwardedBytes + Cleared(s.done, a) + Cleared(s.done, b);
    cleared <= s.bytes && cleared <= Max(c.firstSize, c.maxBytes)
  }

  predicate FramesKept(c: Config, s: Shared, a: Where, b: Where) {
    var admitted := s.forwardedFrames + Admitted(s.done, a) + Admitted(s.done, b);
    admitted + Counted(a) + Counted(b) <= s.frames && admitted <= Max(1, c.maxFrames)
  }

  /** The evidence flag is taken once, by the thread that will record it. */
  predicate EvidenceKept(s: Shared, upstream: Where, client: Where) {
    && client != Exchanging && client != Recording
    && s.evidenceRecorded + (if upstream == Recording then 1 else 0) == if s.evidenceTaken then 1 else 0
  }

  predicate Inv(c: Config, s: State) {
    && BytesKept(c, s.shared, s.upstream, s.client)
    && FramesKept(c, s.shared, s.upstream, s.client)
    && EvidenceKept(s.shared, s.upstream, s.client)
  }

  lemma BytesMove(c: Config, s: Shared, t: Thread, w: Where, other: Where, i: Input)
    requires BytesKept(c, s, w, other)
    ensures var (s', w') := Move(c, s, t, w, i); BytesKept(c, s', w', other)
  {
  }

  lemma FramesMove(c: Config, s: Shared, t: Thread, w: Where, other: Where, i: Input)
    requires FramesKept(c, s, w, other)
    ensures var (s', w') := Move(c, s, t, w, i); FramesKept(c, s', w', other)
  {
  }

  lemma StepKeeps(c: Config, s: State, t: Thread, i: Input)
    requires Inv(c, s)
    ensures Inv(c, Step(c, s, t, i))
  {
    match t {
      case Upstream =>
        BytesMove(c, s.shared, t, s.upstream, s.client, i);
        FramesMove(c, s.shared, t, s.upstream, s.client, i);
      case Client =>
        BytesMove(c, s.shared, t, s.client, s.upstream, i);
        FramesMove(c, s.shared, t, s.client, s.upstream, i);
    }
  }

  /**
   * Under every interleaving: the bytes forwarded never exceed the cap or the first frame, the
   * frames never exceed the cap or one, and output evidence is recorded at most once.
   */
  lemma {:induction false} CapsHold(c: Config, schedule: seq<(Thread, Input)>)
    ensures var s := Run(c, schedule);
            && Inv(c, s)
            && s.shared.forwardedBytes <= Max(c.firstSize, c.maxBytes)
            && s.shared.forwardedFrames <= Max(1, c.maxFrames)
            && s.shared.evidenceRecorded <= 1
  {
    if schedule != [] {
      var n := |schedule| - 1;
      CapsHold(c, schedule[..n]);
      StepKeeps(c, Run(c, schedule[..n]), schedule[n].0, schedule[n].1);
    }
  }

  /** Is the pump past its last look at `done`? */
  function Committed(w: Where): nat {
    if w.Sending? then 1 else 0
  }

  function Outstanding(s: State): nat {
    s.shared.forwardedFrames + Committed(s.upstream) + Committed(s.client)
  }

  lemma DoneMove(c: Config, s: Shared, t: Thread, w: Where, i: Input)
    requires s.done
    ensures var (s', w') := Move(c, s, t, w, i);
            s'.done && s'.forwardedFrames + Committed(w') <= s.forwardedFrames + Committed(w)
  {
  }

  lemma DoneStep(c: Config, s: State, t: Thread, i: Input)
    requires s.shared.done
    ensures Step(c, s, t, i).shared.done && Outstanding(Step(c, s, t, i)) <= Outstanding(s)
  {
    DoneMove(c, s.shared, t, if t == Upstream then s.upstream else s.client, i);
  }

  /** Once `done` is set it stays set, and no frame leaves but the one each pump was already sending. */
  lemma {:induction false} DoneStops(c: Config, s: State, schedule: seq<(Thread, Input)>)
    requires s.shared.done
    ensures var s' := RunFrom(c, s, schedule);
            s'.shared.done && s'.shared.forwardedFrames <= Outstanding(s') <= Outstanding(s)
  {
    if schedule != [] {
      var n := |schedule| - 1;
      DoneStops(c, s, schedule[..n]);
      DoneStep(c, RunFrom(c, s, schedule[..n]), schedule[n].0, schedule[n].1);
    }
  }
}
