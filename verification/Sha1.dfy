/**
 * SHA-1 as the WebSocket handshake computes it, against sections 4 to 6.1 of RFC 3174. How words
 * are loaded, mixed and added is a parameter of the block transform; `STANDARD` is the one in use.
 */
module Sha1 {
  import opened Bytes

  type Block = s: seq<byte> | |s| == 64 witness seq(64, i => 0)

  /** The bytes of a word, highest first. */
  type Four = s: seq<byte> | |s| == 4 witness [0, 0, 0, 0]

  datatype Words<!W> = Words(zero: W,
                             load: (byte, byte, byte, byte) -> W,
                             extend: (W, W, W, W) -> W,
                             temp: (nat, W, W, W, W, W, W) -> W,
                             turn: W -> W,
                             sum: (W, W) -> W,
                             bytes: W -> Four)

  datatype Digest<W> = Digest(a: W, b: W, c: W, d: W, e: W)

  // ---- The standard ----

  /** The word schedule: W(t) of section 6.1. */
  function Schedule<W>(o: Words<W>, block: Block, t: nat): W {
    if t < 16 then o.load(block[4 * t], block[4 * t + 1], block[4 * t + 2], block[4 * t + 3])
    else o.extend(Schedule(o, block, t - 3), Schedule(o, block, t - 8), Schedule(o, block, t - 14),
                  Schedule(o, block, t - 16))
  }

  /** The registers A to E after the steps of section 6.1 on these words. */
  function Registers<W>(o: Words<W>, h: Digest<W>, words: seq<W>): Digest<W> {
    if words == [] then h
    else
      var t := |words| - 1;
      var r := Registers(o, h, words[..t]);
      Digest(o.temp(t, r.a, r.b, r.c, r.d, r.e, words[t]), r.a, o.turn(r.b), r.c, r.d)
  }

  function Eighty<W>(o: Words<W>, block: Block): seq<W> {
    seq(80, t requires 0 <= t => Schedule(o, block, t))
  }

  function Compress<W>(o: Words<W>, h: Digest<W>, block: Block): Digest<W> {
    var r := Registers(o, h, Eighty(o, block));
    Digest(o.sum(h.a, r.a), o.sum(h.b, r.b), o.sum(h.c, r.c), o.sum(h.d, r.d), o.sum(h.e, r.e))
  }

  function BlockAt(data: seq<byte>, n: nat): Block
    requires 64 * n + 64 <= |data|
  {
    data[64 * n..64 * n + 64]
  }

  /** A step folded over the first `n` blocks. */
  function Fold<D>(step: (D, Block) -> D, h: D, data: seq<byte>, n: nat): D
    requires 64 * n <= |data|
  {
    if n == 0 then h else step(Fold(step, h, data, n - 1), BlockAt(data, n - 1))
  }

  function Transforming<W>(o: Words<W>): (Digest<W>, Block) -> Digest<W> {
    (h: Digest<W>, block: Block) => Compress(o, h, block)
  }

  /** Section 6.1: the block transform folded over the padded message. */
  function Hash<W>(o: Words<W>, h: Digest<W>, message: seq<byte>): Digest<W> {
    Fold(Transforming(o), h, Pad(message), |Pad(message)| / 64)
  }

  function Zeros(n: nat): (s: seq<byte>)
    ensures |s| == n
  {
    seq(n, i => 0)
  }

  /** Section 4: a one bit, as few zeros as reach the next block boundary, and the length in bits. */
  function Pad(message: seq<byte>): seq<byte> {
    message + [0x80] + Zeros((119 - |message| % 64) % 64) + ToBigEndian(8 * |message|, 8)
  }

  function DigestBytes<W>(o: Words<W>, h: Digest<W>): (s: seq<byte>)
    ensures |s| == 20
  {
    o.bytes(h.a) + o.bytes(h.b) + o.bytes(h.c) + o.bytes(h.d) + o.bytes(h.e)
  }

  // ---- The code: blocks ----

  /** `sha1_transform`: the schedule. */
  method FillSchedule<W>(o: Words<W>, block: Block) returns (w: array<W>)
    ensures fresh(w) && w[..] == Eighty(o, block)
  {
    w := new W[80](i => o.zero);
    for i := 0 to 16
      invariant forall t | 0 <= t < i :: w[t] == Schedule(o, block, t)
    {
      w[i] := o.load(block[i * 4], block[i * 4 + 1], block[i * 4 + 2], block[i * 4 + 3]);
    }
    for i := 16 to 80
      invariant forall t | 0 <= t < i :: w[t] == Schedule(o, block, t)
    {
      w[i] := o.extend(w[i - 3], w[i - 8], w[i - 14], w[i - 16]);
    }
  }

  /** The state array as one value. */
  ghost function StateOf<W>(state: array<W>): Digest<W>
    requires state.Length == 5
    reads state
  {
    Digest(state[0], state[1], state[2], state[3], state[4])
  }

  /** `sha1_transform`: the eighty rounds, and the sum into the state. */
  method Transform<W>(o: Words<W>, state: array<W>, block: Block)
    requires state.Length == 5
    modifies state
    ensures StateOf(state) == Compress(o, old(StateOf(state)), block)
  {
    var w := FillSchedule(o, block);
    var a, b, c, d, e := state[0], state[1], state[2], state[3], state[4];
    for i := 0 to 80
      invariant StateOf(state) == old(StateOf(state))
      invariant w[..] == Eighty(o, block)
      invariant Digest(a, b, c, d, e) == Registers(o, old(StateOf(state)), w[..i])
    {
      assert w[..i + 1][..i] == w[..i];
      var temp := o.temp(i, a, b, c, d, e, w[i]);
      e, d, c, b, a := d, c, o.turn(b), a, temp;
    }
    assert w[..80] == w[..];
    state[0], state[1], state[2], state[3], state[4] :=
      o.sum(state[0], a), o.sum(state[1], b), o.sum(state[2], c), o.sum(state[3], d), o.sum(state[4], e);
  }

  // ---- The code: messages ----

  lemma BlockBehind(front: seq<byte>, k: nat, back: seq<byte>, n: nat)
    requires |front| == 64 * k && 64 * n + 64 <= |back|
    ensures BlockAt(front + back, k + n) == BlockAt(back, n)
  {
    var lo := 64 * n;
    assert (front + back)[|front| + lo..|front| + lo + 64] == back[lo..lo + 64];
  }

  /** Blocks of the front, then blocks of the back. */
  lemma {:induction false} FoldConcat<D>(step: (D, Block) -> D, h: D, front: seq<byte>, k: nat, back: seq<byte>, n: nat)
    requires |front| == 64 * k && 64 * n <= |back|
    ensures Fold(step, h, front + back, k + n) == Fold(step, Fold(step, h, front, k), back, n)
    decreases n
  {
    if n > 0 {
      FoldConcat(step, h, front, k, back, n - 1);
      BlockBehind(front, k, back, n - 1);
    } else {
      FoldPrefix(step, h, front, front + back, k);
    }
  }

  lemma {:induction false} FoldPrefix<D>(step: (D, Block) -> D, h: D, a: seq<byte>, b: seq<byte>, n: nat)
    requires 64 * n <= |a| <= |b| && b[..|a|] == a
    ensures Fold(step, h, a, n) == Fold(step, h, b, n)
  {
    if n > 0 {
      FoldPrefix(step, h, a, b, n - 1);
      assert BlockAt(a, n - 1) == BlockAt(b, n - 1);
    }
  }

  /** The loop over the whole blocks of a buffer. */
  method Absorb<W>(o: Words<W>, state: array<W>, data: seq<byte>) returns (blocks: nat)
    requires state.Length == 5
    modifies state
    ensures 64 * blocks <= |data| < 64 * blocks + 64
    ensures StateOf(state) == Fold(Transforming(o), old(StateOf(state)), data, blocks)
  {
    blocks := 0;
    while 64 * blocks + 64 <= |data|
      invariant 64 * blocks <= |data|
      invariant StateOf(state) == Fold(Transforming(o), old(StateOf(state)), data, blocks)
    {
      Transform(o, state, BlockAt(data, blocks));
      blocks := blocks + 1;
    }
  }

  function Ending(rest: seq<byte>, length: nat): seq<byte> {
    rest + [0x80] + Zeros((119 - |rest|) % 64) + ToBigEndian(8 * length, 8)
  }

  /** The last one or two blocks: what is left, a one bit, zeros, and the length in bits. */
  method FinalBlocks(rest: seq<byte>, length: nat) returns (out: seq<byte>)
    requires |rest| < 64
    ensures |out| == 64 || |out| == 128
    ensures out == Ending(rest, length)
  {
    var final := new byte[128](i => 0);
    for i := 0 to |rest|
      invariant forall k | 0 <= k < 128 :: final[k] == if k < i then rest[k] else 0
    {
      final[i] := rest[i];
    }
    final[|rest|] := 0x80;
    var finalLen := if |rest| < 56 then 64 else 128;
    var bits := 8 * length;
    ghost var tail := ToBigEndian(bits, 8);
    for j := 0 to 8
      invariant forall k | 0 <= k < finalLen - j ::
                  final[k] == if k < |rest| then rest[k] else if k == |rest| then 0x80 else 0
      invariant forall k | finalLen - j <= k < finalLen :: final[k] == tail[k - (finalLen - 8)]
    {
      ToBigEndianAt(bits, 8, j);
      final[finalLen - 1 - j] := ShiftBytes(bits, j) % 256;
    }
    out := final[..finalLen];
    ghost var zeros := (119 - |rest|) % 64;
    assert finalLen == |rest| + 1 + zeros + 8;
    assert out == rest + [0x80] + Zeros(zeros) + tail;
  }

  lemma ModIs(n: nat, blocks: nat, rest: nat)
    requires n == 64 * blocks + rest && rest < 64
    ensures n % 64 == rest && n / 64 == blocks
  {
  }

  lemma WholeBlocks(size: nat, blocks: nat)
    requires 64 * blocks <= size < 64 * blocks + 64 && (size == 64 || size == 128)
    ensures size == 64 * blocks
  {
  }

  lemma PadSplits(data: seq<byte>, blocks: nat, final: seq<byte>, last: nat)
    requires 64 * blocks <= |data| < 64 * blocks + 64 && |final| == 64 * last
    requires final == Ending(data[64 * blocks..], |data|)
    ensures Pad(data) == data[..64 * blocks] + final
    ensures |Pad(data)| / 64 == blocks + last
  {
    var front, rest := data[..64 * blocks], data[64 * blocks..];
    ModIs(|data|, blocks, |rest|);
    assert data == front + rest;
    assert Pad(data) == front + final;
    ModIs(|Pad(data)|, blocks + last, 0);
  }

  lemma FoldSplits<D>(step: (D, Block) -> D, h: D, data: seq<byte>, blocks: nat, final: seq<byte>, last: nat,
                      padded: seq<byte>, total: nat)
    requires 64 * blocks <= |data| && 64 * last == |final|
    requires padded == data[..64 * blocks] + final && total == blocks + last
    ensures Fold(step, h, padded, total) == Fold(step, Fold(step, h, data, blocks), final, last)
  {
    FoldPrefix(step, h, data[..64 * blocks], data, blocks);
    FoldConcat(step, h, data[..64 * blocks], blocks, final, last);
  }

  method Load<W>(o: Words<W>, h: Digest<W>) returns (state: array<W>)
    ensures fresh(state) && state.Length == 5 && StateOf(state) == h
  {
    state := new W[5](i => o.zero);
    state[0], state[1], state[2], state[3], state[4] := h.a, h.b, h.c, h.d, h.e;
  }

  /** `sha1`, up to the digest's bytes: the standard's fold over the standard's padding. */
  method Sha1Words<W>(o: Words<W>, initial: Digest<W>, data: seq<byte>) returns (h: Digest<W>)
    ensures h == Hash(o, initial, data)
  {
    var state := Load(o, initial);
    var blocks := Absorb(o, state, data);
    var final := FinalBlocks(data[64 * blocks..], |data|);
    var last := Absorb(o, state, final);
    h := Digest(state[0], state[1], state[2], state[3], state[4]);
    WholeBlocks(|final|, last);
    PadSplits(data, blocks, final, last);
    FoldSplits(Transforming(o), initial, data, blocks, final, last, Pad(data), |Pad(data)| / 64);
  }
}
