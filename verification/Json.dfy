/**
 * JSON values as RapidJSON presents them to the gateway. An object is the map that member
 * lookup sees. Strings may hold NUL; `CStr` is what `GetString()` and `c_str()` keep of one.
 */
module Json {
  import opened Seqs
  import Sse

  const INT_MAX: int := 0x7fff_ffff
  const INT_MIN: int := -0x8000_0000

  /** The integers a RapidJSON number can hold as such. */
  type JsonInt = n: int | -0x8000_0000_0000_0000 <= n < 0x1_0000_0000_0000_0000
  /** A C++ `int`. */
  type int32 = n: int | -0x8000_0000 <= n <= 0x7fff_ffff

  /** A finite number with a text of its own: digits times a power of ten. */
  datatype Float = Float(digits: int, exponent: int)

  datatype Json =
    | Null
    | Bool(b: bool)
    | Int(n: JsonInt)
    | Double(d: Float)
    | Str(s: string)
    | Arr(items: seq<Json>)
    | Obj(members: map<string, Json>)
  {
    predicate Has(key: string) {
      Obj? && key in members
    }

    /** The member, or null when there is none. */
    function At(key: string): Json {
      if Has(key) then members[key] else Null
    }

    predicate IsInt() {
      Int? && INT_MIN <= n <= INT_MAX
    }

    predicate IsInt64() {
      Int? && n < 0x8000_0000_0000_0000
    }
  }

  function FirstNul(s: string, i: nat): (r: nat)
    requires i <= |s|
    ensures i <= r <= |s| && '\0' !in s[i..r]
    decreases |s| - i
  {
    if i == |s| || s[i] == '\0' then i else FirstNul(s, i + 1)
  }

  /** A string up to its first NUL. */
  function CStr(s: string): (r: string)
    ensures '\0' !in r
  {
    if '\0' in s then s[0..FirstNul(s, 0)] else s
  }

  /** A JSON string made from `c_str()`. */
  function CText(s: string): Json {
    Str(CStr(s))
  }

  /** `get_str` and `member_string`: the text of a string member, empty when there is none. */
  function Text(j: Json, key: string): (r: string)
    ensures '\0' !in r
  {
    if j.At(key).Str? then CStr(j.At(key).s) else ""
  }

  /** A member that is written only when the text is not empty. */
  function Optional(key: string, s: string): map<string, Json> {
    if s != "" then map[key := CText(s)] else map[]
  }

  /** RapidJSON's text parser and writer; `parse` yields None on a parse error. */
  datatype Codec = Codec(parse: string -> Option<Json>, write: Json -> string)

  /**
   * Parsing undoes writing; the writer emits one line, without NUL, and objects start with a brace.
   * An empty text is no document.
   */
  ghost predicate Lawful(c: Codec) {
    c.parse("").None? && forall j {:trigger c.write(j)} ::
      var text := c.write(j);
      && c.parse(text) == Some(j)
      && '\0' !in text
      && Sse.OneLine(text)
      && (j.Obj? ==> text != "" && text[0] == '{')
  }

  // ---- Strings without NUL ----

  predicate Clean(s: string) {
    '\0' !in s
  }

  lemma {:induction false} FlattenClean(parts: seq<string>)
    requires forall i | 0 <= i < |parts| :: Clean(parts[i])
    ensures Clean(Flatten(parts))
  {
    if parts != [] {
      FlattenClean(parts[..|parts| - 1]);
    }
  }
}
