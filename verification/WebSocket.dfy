/** WebSocket frames as the gateway reads and writes them (section 5.2 of RFC 6455). */
module WebSocket {
  import opened Bytes

  datatype Frame = Frame(fin: bool, opcode: nat, payload: seq<byte>)

  /** `TooLong` is the exception of a payload that no string can hold. */
  datatype Outcome = Incomplete | TooLong | Complete(frame: Frame, consumed: nat)

  const SIZE_MAX: nat := 0x1_0000_0000_0000_0000

  // ---- Reading ----

  /** How many bytes the length takes, after the first two. */
  function LengthBytes(second: byte): nat {
    if second % 128 == 126 then 2 else if second % 128 == 127 then 8 else 0
  }

  function KeyBytes(second: byte): nat {
    if second >= 128 then 4 else 0
  }

  function HeaderBytes(second: byte): nat {
    2 + LengthBytes(second) + KeyBytes(second)
  }

  function PayloadSize(data: seq<byte>): nat
    requires |data| >= 2 && |data| >= 2 + LengthBytes(data[1])
  {
    if LengthBytes(data[1]) == 0 then data[1] % 128 else BigEndian(data[2..2 + LengthBytes(data[1])])
  }

  function Unmask(payload: seq<byte>, key: seq<byte>): (r: seq<byte>)
    requires |key| == 4
    ensures |r| == |payload|
  {
    seq(|payload|, i requires 0 <= i < |payload| => Xor(payload[i], key[i % 4]))
  }

  function Payload(data: seq<byte>, offset: nat, size: nat): seq<byte>
    requires |data| >= 2 && offset + size <= |data| && (data[1] >= 128 ==> offset >= 4)
  {
    var raw := data[offset..offset + size];
    if data[1] >= 128 then Unmask(raw, data[offset - 4..offset]) else raw
  }

  function Parse(data: seq<byte>): Outcome {
    if |data| < 2 || |data| < HeaderBytes(data[1]) then Incomplete
    else
      var size, offset := PayloadSize(data), HeaderBytes(data[1]);
      if |data| < (offset + size) % SIZE_MAX then Incomplete
      else if |data| < offset + size then TooLong
      else Complete(Frame(data[0] >= 128, data[0] % 16, Payload(data, offset, size)), offset + size)
  }

  /** The eight-byte length, shifted in byte by byte. */
  method ReadLength(data: seq<byte>, count: nat) returns (size: nat)
    requires |data| >= 2 + count && count <= 8
    ensures size == BigEndian(data[2..2 + count])
  {
    size := 0;
    for i := 0 to count
      invariant size == BigEndian(data[2..2 + i])
    {
      assert data[2..2 + i + 1][..i] == data[2..2 + i];
      size := size * 256 + data[2 + i];
    }
  }

  /** The payload, unmasked in place. */
  method UnmaskInPlace(payload: array<byte>, key: seq<byte>)
    requires |key| == 4
    modifies payload
    ensures payload[..] == Unmask(old(payload[..]), key)
  {
    for i := 0 to payload.Length
      invariant forall k | 0 <= k < i :: payload[k] == Xor(old(payload[k]), key[k % 4])
      invariant forall k | i <= k < payload.Length :: payload[k] == old(payload[k])
    {
      payload[i] := Xor(payload[i], key[i % 4]);
    }
  }

  /** The length of the payload and where the length ends; the flag is false when bytes are missing. */
  method ReadSize(data: seq<byte>) returns (ok: bool, size: nat, offset: nat)
    requires |data| >= 2
    ensures ok <==> |data| >= 2 + LengthBytes(data[1])
    ensures ok ==> size == PayloadSize(data) && offset == 2 + LengthBytes(data[1])
  {
    ok, size, offset := true, data[1] % 128, 2;
    if size == 126 {
      if |data| < 4 {
        return false, 0, 2;
      }
      size := ReadLength(data, 2);
      offset := 4;
    } else if size == 127 {
      if |data| < 10 {
        return false, 0, 2;
      }
      size := ReadLength(data, 8);
      offset := 10;
    }
  }

  /** `parse_ws_frame`. */
  method ParseFrame(data: seq<byte>) returns (r: Outcome)
    ensures r == Parse(data)
  {
    if |data| < 2 {
      return Incomplete;
    }
    var fin, opcode, masked := data[0] >= 128, data[0] % 16, data[1] >= 128;
    var ok, size, offset := ReadSize(data);
    if !ok {
      return Incomplete;
    }
    var key := [0, 0, 0, 0];
    if masked {
      if |data| < offset + 4 {
        return Incomplete;
      }
      key, offset := data[offset..offset + 4], offset + 4;
    }
    if |data| < (offset + size) % SIZE_MAX {
      return Incomplete;
    }
    if |data| < offset + size {
      return TooLong;
    }
    var payload := new byte[size](i requires 0 <= i < size => data[offset + i]);
    assert payload[..] == data[offset..offset + size];
    if masked {
      UnmaskInPlace(payload, key);
    }
    r := Complete(Frame(fin, opcode, payload[..]), offset + size);
  }

  // ---- Writing ----

  /** `0x80 | b`. */
  function SetTop(b: byte): byte {
    if b < 128 then b + 128 else b
  }

  function MaskBit(mask: bool): byte {
    if mask then 128 else 0
  }

  function Prefix(size: nat, mask: bool): (r: seq<byte>)
    ensures |r| >= 1
  {
    if size < 126 then [MaskBit(mask) + size]
    else if size < 65536 then [MaskBit(mask) + 126] + ToBigEndian(size, 2)
    else [MaskBit(mask) + 127] + ToBigEndian(size, 8)
  }

  /** `encode_ws_frame`: the mask bit, but never a key and never a masked payload. */
  function Encode(opcode: byte, payload: seq<byte>, mask: bool): seq<byte> {
    [SetTop(opcode)] + Prefix(|payload|, mask) + payload
  }

  /** The length bytes, highest first. */
  method WriteLength(out: seq<byte>, size: nat, count: nat) returns (r: seq<byte>)
    ensures r == out + ToBigEndian(size, count)
  {
    r := out;
    for i := count downto 0
      invariant r == out + ToBigEndian(size, count)[..count - i]
    {
      ToBigEndianAt(size, count, i);
      r := r + [ShiftBytes(size, i) % 256];
    }
  }

  /** The length byte, and the longer length behind it. */
  method WritePrefix(out: seq<byte>, size: nat, mask: bool) returns (r: seq<byte>)
    ensures r == out + Prefix(size, mask)
  {
    if size < 126 {
      r := out + [MaskBit(mask) + size];
    } else if size < 65536 {
      r := out + [MaskBit(mask) + 126];
      r := WriteLength(r, size, 2);
    } else {
      r := out + [MaskBit(mask) + 127];
      r := WriteLength(r, size, 8);
    }
  }

  method EncodeFrame(opcode: byte, payload: seq<byte>, mask: bool) returns (out: seq<byte>)
    ensures out == Encode(opcode, payload, mask)
  {
    out := WritePrefix([SetTop(opcode)], |payload|, mask);
    out := out + payload;
  }

  // ---- What a reader consumes ----

  lemma SizeOfPrefix(data: seq<byte>, k: nat)
    requires 2 <= k <= |data| && k >= 2 + LengthBytes(data[1])
    ensures PayloadSize(data[..k]) == PayloadSize(data)
  {
    assert data[..k][2..2 + LengthBytes(data[1])] == data[2..2 + LengthBytes(data[1])];
  }

  lemma PayloadOfPrefix(data: seq<byte>, offset: nat, size: nat, k: nat)
    requires |data| >= 2 && offset + size <= k <= |data| && offset >= 4 && k >= 2
    ensures Payload(data[..k], offset, size) == Payload(data, offset, size)
  {
    assert data[..k][offset..offset + size] == data[offset..offset + size];
    assert data[..k][offset - 4..offset] == data[offset - 4..offset];
  }

  /** Enough bytes for the whole frame, and no wrap-around in their number. */
  lemma CompleteIs(data: seq<byte>, size: nat, offset: nat)
    requires |data| >= 2 && |data| >= HeaderBytes(data[1]) && |data| < SIZE_MAX
    requires offset == HeaderBytes(data[1]) && size == PayloadSize(data) && offset + size < SIZE_MAX
    ensures Parse(data) == if |data| < offset + size then Incomplete
                           else Complete(Frame(data[0] >= 128, data[0] % 16, Payload(data, offset, size)), offset + size)
  {
  }

  /**
   * A complete frame consumes no more than there is; with the consumed bytes or more in hand the
   * answer is the same, and with any fewer it is Incomplete.
   */
  lemma ConsumesExactly(data: seq<byte>, k: nat)
    requires Parse(data).Complete? && k <= |data| < SIZE_MAX
    ensures Parse(data).consumed <= |data|
    ensures Parse(data[..k]) == if k < Parse(data).consumed then Incomplete else Parse(data)
  {
    var size, offset := PayloadSize(data), HeaderBytes(data[1]);
    if k >= offset {
      SizeOfPrefix(data, k);
      CompleteIs(data[..k], size, offset);
      if k >= offset + size {
        if data[1] >= 128 {
          PayloadOfPrefix(data, offset, size, k);
        } else {
          assert data[..k][offset..offset + size] == data[offset..offset + size];
        }
      }
    }
  }

  // ---- The codec ----

  /** A frame with any header bits and a key, as section 5.3 of RFC 6455 masks it. */
  function Masked(first: byte, payload: seq<byte>, key: seq<byte>): seq<byte>
    requires |key| == 4
  {
    [first] + Prefix(|payload|, true) + key + Unmask(payload, key)
  }

  lemma PrefixReads(head: seq<byte>, size: nat, mask: bool, tail: seq<byte>)
    requires |head| == 1 && size < SIZE_MAX
    ensures var data := head + Prefix(size, mask) + tail;
            && (data[1] >= 128 <==> mask)
            && 2 + LengthBytes(data[1]) == 1 + |Prefix(size, mask)|
            && |data| >= 2 + LengthBytes(data[1])
            && PayloadSize(data) == size
  {
    var data := head + Prefix(size, mask) + tail;
    var bytes := LengthBytes(data[1]);
    assert data[1] == Prefix(size, mask)[0];
    if size >= 126 {
      var count := if size < 65536 then 2 else 8;
      assert data[2..2 + count] == ToBigEndian(size, count);
      assert Pow256(2) == 65536 && Pow256(4) == 65536 * 65536 && Pow256(8) == SIZE_MAX;
      BigEndianBack(size, count);
    }
  }

  /** Every unmasked frame the gateway writes is read back as it was, and consumed exactly. */
  lemma EncodedReadsBack(opcode: byte, payload: seq<byte>)
    requires |Encode(opcode, payload, false)| < SIZE_MAX
    ensures var data := Encode(opcode, payload, false);
            Parse(data) == Complete(Frame(true, opcode % 16, payload), |data|)
  {
    PrefixReads([SetTop(opcode)], |payload|, false, payload);
  }

  /** So is it in front of any other bytes, and every strict prefix of it is incomplete. */
  lemma EncodedInStream(opcode: byte, payload: seq<byte>, rest: seq<byte>, k: nat)
    requires |Encode(opcode, payload, false) + rest| < SIZE_MAX
    requires k < |Encode(opcode, payload, false)|
    ensures var data := Encode(opcode, payload, false);
            && Parse(data + rest) == Complete(Frame(true, opcode % 16, payload), |data|)
            && Parse(data[..k]) == Incomplete
  {
    var data := Encode(opcode, payload, false);
    EncodedReadsBack(opcode, payload);
    ConsumesExactly(data, k);
    PrefixReads([SetTop(opcode)], |payload|, false, payload + rest);
    assert data + rest == [SetTop(opcode)] + Prefix(|payload|, false) + (payload + rest);
  }

  lemma UnmaskTwice(payload: seq<byte>, key: seq<byte>)
    requires |key| == 4
    ensures Unmask(Unmask(payload, key), key) == payload
  {
    forall i | 0 <= i < |payload| ensures Unmask(Unmask(payload, key), key)[i] == payload[i] {
      XorTwice(payload[i], key[i % 4]);
    }
  }

  /** Masked frames of a client are unmasked. */
  lemma MaskedReadsBack(first: byte, payload: seq<byte>, key: seq<byte>)
    requires |key| == 4 && |Masked(first, payload, key)| < SIZE_MAX
    ensures var data := Masked(first, payload, key);
            Parse(data) == Complete(Frame(first >= 128, first % 16, payload), |data|)
  {
    var data, tail := Masked(first, payload, key), key + Unmask(payload, key);
    PrefixReads([first], |payload|, true, tail);
    assert data == [first] + Prefix(|payload|, true) + tail;
    var offset := HeaderBytes(data[1]);
    CompleteIs(data, |payload|, offset);
    assert data[offset - 4..offset] == key;
    assert data[offset..offset + |payload|] == Unmask(payload, key);
    UnmaskTwice(payload, key);
  }

  /** A frame written by itself is read back exactly when it was not asked to be masked. */
  lemma ReadsBackExactlyUnmasked(opcode: byte, payload: seq<byte>, mask: bool)
    requires |payload| + 14 < SIZE_MAX
    ensures var data := Encode(opcode, payload, mask);
            && (Parse(data) == Complete(Frame(true, opcode % 16, payload), |data|) <==> !mask)
            && (mask ==> Parse(data) == Incomplete)
  {
    if mask {
      PrefixReads([SetTop(opcode)], |payload|, true, payload);
    } else {
      EncodedReadsBack(opcode, payload);
    }
  }
}
