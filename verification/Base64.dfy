/**
 * Base64 with padding, against section 4 of RFC 4648. The encoder takes its alphabet as a function;
 * `Letter` is the standard one.
 */
module Base64 {
  import opened Seqs
  import opened Bytes

  // ---- The standard's decoder ----

  function ValueOf(c: char): (r: Option<int>)
    ensures r.Some? ==> 0 <= r.value < 64
  {
    if 'A' <= c <= 'Z' then Some(c as int - 'A' as int)
    else if 'a' <= c <= 'z' then Some(c as int - 'a' as int + 26)
    else if '0' <= c <= '9' then Some(c as int - '0' as int + 52)
    else if c == '+' then Some(62)
    else if c == '/' then Some(63)
    else None
  }

  /** One group of four characters: three bytes, or fewer when it is padded. */
  function DecodeGroup(a: char, b: char, c: char, d: char): Option<seq<byte>> {
    match (ValueOf(a), ValueOf(b))
    case (Some(w), Some(x)) =>
      (match (ValueOf(c), ValueOf(d))
       case (Some(y), Some(z)) => Some([w * 4 + x / 16, x % 16 * 16 + y / 4, y % 4 * 64 + z])
       case (Some(y), None) => if d == '=' && y % 4 == 0 then Some([w * 4 + x / 16, x % 16 * 16 + y / 4]) else None
       case (None, _) => if c == '=' && d == '=' && x % 16 == 0 then Some([w * 4 + x / 16]) else None)
    case _ => None
  }

  function Decode(text: string): Option<seq<byte>> {
    if text == "" then Some([])
    else if |text| < 4 then None
    else
      match (DecodeGroup(text[0], text[1], text[2], text[3]), Decode(text[4..]))
      case (Some(bytes), Some(rest)) => if |bytes| < 3 && rest != [] then None else Some(bytes + rest)
      case _ => None
  }

  // ---- The encoder ----

  type Sextet = n: int | 0 <= n < 64

  function Bits(a: int, b: int, c: int): int {
    a * 65536 + b * 256 + c
  }

  /** The four characters of the group that starts with these bytes. */
  function Group(letter: Sextet -> char, data: seq<byte>): (r: string)
    requires data != []
    ensures |r| == 4
  {
    var n := Bits(data[0], if |data| > 1 then data[1] else 0, if |data| > 2 then data[2] else 0);
    [letter(n / 262144), letter(n / 4096 % 64),
     if |data| > 1 then letter(n / 64 % 64) else '=',
     if |data| > 2 then letter(n % 64) else '=']
  }

  function Rest(data: seq<byte>): seq<byte> {
    if |data| > 3 then data[3..] else []
  }

  function Encode(letter: Sextet -> char, data: seq<byte>): string
    decreases |data|
  {
    if data == [] then "" else Group(letter, data) + Encode(letter, Rest(data))
  }

  /** One turn of the loop: the group at position `i`. */
  method NextGroup(letter: Sextet -> char, data: seq<byte>, i: nat) returns (out: string)
    requires i < |data|
    ensures out == Group(letter, data[i..])
  {
    var n := data[i] as int * 65536;
    if i + 1 < |data| {
      n := n + data[i + 1] as int * 256;
    }
    if i + 2 < |data| {
      n := n + data[i + 2] as int;
    }
    out := [letter(n / 262144), letter(n / 4096 % 64)];
    out := out + [if i + 1 < |data| then letter(n / 64 % 64) else '='];
    out := out + [if i + 2 < |data| then letter(n % 64) else '='];
  }

  /** `base64_encode`: three bytes at a time. */
  method EncodeBytes(letter: Sextet -> char, data: seq<byte>) returns (out: string)
    ensures out == Encode(letter, data)
  {
    out := "";
    var i := 0;
    while i < |data|
      invariant Encode(letter, data) == out + Encode(letter, if i < |data| then data[i..] else [])
    {
      ghost var rest := data[i..];
      assert Rest(rest) == if i + 3 < |data| then data[i + 3..] else [];
      var group := NextGroup(letter, data, i);
      assert out + (group + Encode(letter, Rest(rest))) == out + group + Encode(letter, Rest(rest));
      out := out + group;
      i := i + 3;
    }
  }

  // ---- The round trip ----

  lemma DivideHigh(n: int, q: int, r: int)
    requires n == 262144 * q + r && 0 <= r < 262144
    ensures n / 262144 == q
  {
  }

  lemma DivideMiddle(n: int, q: int, r: int)
    requires n == 4096 * q + r && 0 <= r < 4096
    ensures n / 4096 == q
  {
  }

  lemma DivideLow(n: int, q: int, r: int)
    requires n == 64 * q + r && 0 <= r < 64
    ensures n / 64 == q && n % 64 == r
  {
  }

  /** Three bytes split over four sextets. */
  lemma Sextets(a: byte, b: byte, c: byte)
    ensures var n := Bits(a, b, c);
            && n / 262144 == a / 4 && n / 4096 % 64 == a % 4 * 16 + b / 16
            && n / 64 % 64 == b % 16 * 4 + c / 64 && n % 64 == c % 64
  {
    var n, x, y := Bits(a, b, c), a % 4 * 16 + b / 16, b % 16 * 4 + c / 64;
    DivideHigh(n, a / 4, a % 4 * 65536 + b * 256 + c);
    DivideMiddle(n, 64 * (a / 4) + x, b % 16 * 256 + c);
    DivideLow(64 * (a / 4) + x, a / 4, x);
    DivideLow(n, 64 * (64 * (a / 4) + x) + y, c % 64);
    DivideLow(64 * (64 * (a / 4) + x) + y, 64 * (a / 4) + x, y);
  }

  /** And put together again. */
  lemma BytesBack(a: byte, b: byte, c: byte)
    ensures var w, x, y, z := a / 4, a % 4 * 16 + b / 16, b % 16 * 4 + c / 64, c % 64;
            w * 4 + x / 16 == a && x % 16 * 16 + y / 4 == b && y % 4 * 64 + z == c
  {
  }

  /** Every sextet has a letter of its own. */
  ghost predicate Readable(letter: Sextet -> char) {
    forall v: Sextet :: ValueOf(letter(v)) == Some(v)
  }

  lemma GroupValues(letter: Sextet -> char, data: seq<byte>, b: byte, c: byte)
    requires Readable(letter) && data != []
    requires b == (if |data| > 1 then data[1] else 0) && c == (if |data| > 2 then data[2] else 0)
    ensures var g := Group(letter, data);
            && ValueOf(g[0]) == Some(data[0] / 4) && ValueOf(g[1]) == Some(data[0] % 4 * 16 + b / 16)
            && (if |data| > 1 then ValueOf(g[2]) == Some(b % 16 * 4 + c / 64) else g[2] == '=')
            && (if |data| > 2 then ValueOf(g[3]) == Some(c % 64) else g[3] == '=')
  {
    Sextets(data[0], b, c);
  }

  /** What a group of these values decodes to, by how many bytes went into it. */
  lemma ValuesBack(p: char, q: char, r: char, s: char, a: byte, b: byte, c: byte, count: nat)
    requires ValueOf(p) == Some(a / 4) && ValueOf(q) == Some(a % 4 * 16 + b / 16)
    requires if count > 1 then ValueOf(r) == Some(b % 16 * 4 + c / 64) else r == '=' && b == 0
    requires if count > 2 then ValueOf(s) == Some(c % 64) else s == '=' && c == 0
    ensures DecodeGroup(p, q, r, s) == Some(if count > 2 then [a, b, c] else if count > 1 then [a, b] else [a])
  {
    BytesBack(a, b, c);
  }

  lemma GroupBack(letter: Sextet -> char, data: seq<byte>)
    requires Readable(letter) && data != []
    ensures var g := Group(letter, data);
            DecodeGroup(g[0], g[1], g[2], g[3]) == Some(if |data| > 3 then data[..3] else data)
  {
    var g := Group(letter, data);
    var b, c := if |data| > 1 then data[1] else 0, if |data| > 2 then data[2] else 0;
    GroupValues(letter, data, b, c);
    ValuesBack(g[0], g[1], g[2], g[3], data[0], b, c, |data|);
    var front := if |data| > 3 then data[..3] else data;
    assert front == if |data| > 2 then [data[0], b, c] else if |data| > 1 then [data[0], b] else [data[0]];
  }

  /** Decoding gives back the bytes, for every byte string. */
  lemma {:induction false} DecodesBack(letter: Sextet -> char, data: seq<byte>)
    requires Readable(letter)
    ensures Decode(Encode(letter, data)) == Some(data)
    decreases |data|
  {
    if data != [] {
      GroupBack(letter, data);
      DecodesBack(letter, Rest(data));
      assert Encode(letter, data)[4..] == Encode(letter, Rest(data));
      assert data == (if |data| > 3 then data[..3] else data) + Rest(data);
    }
  }

  lemma {:induction false} EncodedLength(letter: Sextet -> char, data: seq<byte>)
    ensures |Encode(letter, data)| == 4 * ((|data| + 2) / 3)
    decreases |data|
  {
    if data != [] {
      EncodedLength(letter, Rest(data));
      assert (|data| + 2) / 3 == (|Rest(data)| + 2) / 3 + 1;
    }
  }

  // ---- The alphabet ----

  const UPPER := "ABCDEFGHIJKLMNOPQRSTUVWXYZ"
  const LOWER := "abcdefghijklmnopqrstuvwxyz"
  const OTHER := "0123456789+/"

  /** The letter at a place of the alphabet, which is the three strings in a row. */
  function Letter(v: Sextet): char {
    if v < 26 then UPPER[v] else if v < 52 then LOWER[v - 26] else OTHER[v - 52]
  }

  lemma UpperLetters(v: nat)
    requires v < 26
    ensures UPPER[v] as int == 'A' as int + v
  {
  }

  lemma LowerLetters(v: nat)
    requires v < 26
    ensures LOWER[v] as int == 'a' as int + v
  {
  }

  lemma OtherLetters(v: nat)
    requires v < 12
    ensures ValueOf(OTHER[v]) == Some(52 + v)
  {
  }

  lemma AlphabetReadable()
    ensures Readable(Letter)
  {
    forall v: Sextet ensures ValueOf(Letter(v)) == Some(v) {
      if v < 26 {
        UpperLetters(v);
      } else if v < 52 {
        LowerLetters(v - 26);
      } else {
        OtherLetters(v - 52);
      }
    }
  }

  /** The standard alphabet decodes back, and takes four characters for every three bytes begun. */
  lemma StandardBack(data: seq<byte>)
    ensures Decode(Encode(Letter, data)) == Some(data)
    ensures |Encode(Letter, data)| == 4 * ((|data| + 2) / 3)
  {
    AlphabetReadable();
    DecodesBack(Letter, data);
    EncodedLength(Letter, data);
  }

  method EncodeStandard(data: seq<byte>) returns (r: string)
    ensures Decode(r) == Some(data)
    ensures |r| == 4 * ((|data| + 2) / 3)
  {
    r := EncodeBytes(Letter, data);
    StandardBack(data);
  }
}
