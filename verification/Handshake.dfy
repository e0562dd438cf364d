/** The WebSocket handshake answer (section 4.2.2 of RFC 6455): base64 of SHA-1 of the key and a fixed string. */
module Handshake {
  import opened Seqs
  import opened Bytes
  import opened Sha1
  import Base64

  // ---- The words of SHA-1 ----

  function Rotate(v: bv32, bits: bv6): bv32
    requires 0 < bits < 32
  {
    (v << bits) | (v >> (32 - bits))
  }

  function LoadWord(b0: byte, b1: byte, b2: byte, b3: byte): bv32 {
    ((b0 as bv32) << 24) | ((b1 as bv32) << 16) | ((b2 as bv32) << 8) | (b3 as bv32)
  }

  function Extend(w3: bv32, w8: bv32, w14: bv32, w16: bv32): bv32 {
    Rotate(w3 ^ w8 ^ w14 ^ w16, 1)
  }

  /** f(t; B, C, D) of section 5 of RFC 3174. */
  function Mix(t: nat, b: bv32, c: bv32, d: bv32): bv32 {
    if t < 20 then (b & c) | (!b & d)
    else if t < 40 then b ^ c ^ d
    else if t < 60 then (b & c) | (b & d) | (c & d)
    else b ^ c ^ d
  }

  /** K(t) of section 5 of RFC 3174. */
  function Constant(t: nat): bv32 {
    if t < 20 then 0x5A827999 else if t < 40 then 0x6ED9EBA1 else if t < 60 then 0x8F1BBCDC else 0xCA62C1D6
  }

  lemma AddSwap(x: bv32, k: bv32, w: bv32)
    ensures x + k + w == x + w + k
  {
  }

  /** The source adds the constant before the word; section 6.1 of RFC 3174 adds it last. */
  function Sum(p: bv32, f: bv32, e: bv32, k: bv32, w: bv32): (r: bv32)
    ensures r == p + f + e + w + k
  {
    AddSwap(p + f + e, k, w);
    p + f + e + k + w
  }

  /** TEMP of section 6.1 of RFC 3174. */
  function Temp(t: nat, a: bv32, b: bv32, c: bv32, d: bv32, e: bv32, w: bv32): (r: bv32)
    ensures r == Rotate(a, 5) + Mix(t, b, c, d) + e + w + Constant(t)
  {
    Sum(Rotate(a, 5), Mix(t, b, c, d), e, Constant(t), w)
  }

  const STANDARD: Words<bv32> :=
    Words(0, LoadWord, Extend, Temp, (v: bv32) => Rotate(v, 30), (x: bv32, y: bv32) => x + y, WordBytes)

  const INITIAL: Digest<bv32> := Digest(0x67452301, 0xEFCDAB89, 0x98BADCFE, 0x10325476, 0xC3D2E1F0)

  function WordBytes(w: bv32): Four {
    [(w >> 24) as int, ((w >> 16) & 0xFF) as int, ((w >> 8) & 0xFF) as int, (w & 0xFF) as int]
  }

  function Sha1Of(message: seq<byte>): (s: seq<byte>)
    ensures |s| == 20
  {
    DigestBytes(STANDARD, Hash(STANDARD, INITIAL, message))
  }

  /** `sha1`. */
  method ComputeSha1(data: seq<byte>) returns (digest: seq<byte>)
    ensures digest == Sha1Of(data)
  {
    var h := Sha1Words(STANDARD, INITIAL, data);
    digest := DigestBytes(STANDARD, h);
  }

  // ---- The answer ----

  function AsBytes(s: string): seq<byte> {
    seq(|s|, i requires 0 <= i < |s| => s[i] as int % 256)
  }

  const MAGIC := "258EAFA5-E914-47DA-95CA-C5AB0DC85B11"

  function Challenge(key: seq<byte>): seq<byte> {
    key + AsBytes(MAGIC)
  }

  method AcceptDigest(digest: seq<byte>) returns (r: string)
    requires |digest| == 20
    ensures |r| == 28 && Base64.Decode(r) == Some(digest)
  {
    r := Base64.EncodeStandard(digest);
  }

  /** `compute_websocket_accept`: 28 characters that decode to the digest of key and fixed string. */
  method Accept(key: seq<byte>) returns (r: string)
    ensures |r| == 28
    ensures Base64.Decode(r) == Some(Sha1Of(Challenge(key)))
  {
    var digest := ComputeSha1(Challenge(key));
    r := AcceptDigest(digest);
  }
}
