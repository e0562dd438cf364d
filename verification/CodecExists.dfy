/**
 * The codec law can be met: a writer whose texts can be told apart has a parser that undoes it. The
 * text here is not JSON's; what matters is that the law asks for nothing impossible.
 */
module CodecExists {
  import opened Seqs
  import opened Json
  import Sse

  // ---- A writer ----

  function Ones(n: nat): string {
    if n == 0 then "0" else "1" + Ones(n - 1)
  }

  function Sign(n: int): char {
    if n >= 0 then '+' else '-'
  }

  function Size(n: int): nat {
    if n >= 0 then n else -n
  }

  function Signed(n: int): string {
    [Sign(n)] + Ones(Size(n))
  }

  function Chars(s: string): string {
    if s == "" then "" else Ones(s[0] as int) + Chars(s[1..])
  }

  function Quoted(s: string): string {
    Ones(|s|) + Chars(s)
  }

  ghost function Key(m: map<string, Json>): string
    requires m != map[]
    ensures Key(m) in m
  {
    var k :| k in m;
    k
  }

  ghost function WriteItems(items: seq<Json>): string {
    if items == [] then "" else Written(items[0]) + WriteItems(items[1..])
  }

  /** Some members of an object, one by one. */
  ghost function WriteMembers(j: Json, m: map<string, Json>): string
    requires j.Obj? && forall k | k in m :: k in j.members && m[k] == j.members[k]
    decreases j, |m|
  {
    if m == map[] then ""
    else
      var k := Key(m);
      assert j.members[k] < j;
      Quoted(k) + Written(m[k]) + WriteMembers(j, m - {k})
  }

  ghost function Written(j: Json): string {
    match j
    case Null => "n"
    case Bool(b) => if b then "t" else "f"
    case Int(n) => "i" + Signed(n)
    case Double(d) => "d" + Signed(d.digits) + Signed(d.exponent)
    case Str(s) => "s" + Quoted(s)
    case Arr(items) => "[" + Ones(|items|) + WriteItems(items)
    case Obj(members) => "{" + Ones(|members|) + WriteMembers(j, members)
  }

  // ---- Its texts can be told apart, whatever follows them ----

  lemma {:induction false} OnesApart(a: nat, b: nat, r: string, s: string)
    requires Ones(a) + r == Ones(b) + s
    ensures a == b && r == s
  {
    assert (Ones(a) + r)[0] == (Ones(b) + s)[0];
    if a == 0 || b == 0 {
      assert r == (Ones(a) + r)[1..] && s == (Ones(b) + s)[1..];
    } else {
      assert (Ones(a) + r)[1..] == Ones(a - 1) + r && (Ones(b) + s)[1..] == Ones(b - 1) + s;
      OnesApart(a - 1, b - 1, r, s);
    }
  }

  lemma TagApart(x: char, a: string, y: char, b: string)
    requires [x] + a == [y] + b
    ensures x == y && a == b
  {
    assert ([x] + a)[0] == ([y] + b)[0];
    assert a == ([x] + a)[1..] && b == ([y] + b)[1..];
  }

  lemma SignedApart(a: int, b: int, r: string, s: string)
    requires Signed(a) + r == Signed(b) + s
    ensures a == b && r == s
  {
    Assoc([Sign(a)], Ones(Size(a)), r);
    Assoc([Sign(b)], Ones(Size(b)), s);
    TagApart(Sign(a), Ones(Size(a)) + r, Sign(b), Ones(Size(b)) + s);
    OnesApart(Size(a), Size(b), r, s);
  }

  lemma {:induction false} CharsApart(a: string, b: string, r: string, s: string)
    requires |a| == |b| && Chars(a) + r == Chars(b) + s
    ensures a == b && r == s
    decreases |a|
  {
    if a == "" {
      assert Chars(a) + r == r && Chars(b) + s == s;
    } else {
      assert Chars(a) + r == Ones(a[0] as int) + (Chars(a[1..]) + r);
      assert Chars(b) + s == Ones(b[0] as int) + (Chars(b[1..]) + s);
      OnesApart(a[0] as int, b[0] as int, Chars(a[1..]) + r, Chars(b[1..]) + s);
      CharsApart(a[1..], b[1..], r, s);
      assert a == [a[0]] + a[1..] && b == [b[0]] + b[1..];
    }
  }

  lemma QuotedApart(a: string, b: string, r: string, s: string)
    requires Quoted(a) + r == Quoted(b) + s
    ensures a == b && r == s
  {
    assert Quoted(a) + r == Ones(|a|) + (Chars(a) + r) && Quoted(b) + s == Ones(|b|) + (Chars(b) + s);
    OnesApart(|a|, |b|, Chars(a) + r, Chars(b) + s);
    CharsApart(a, b, r, s);
  }

  lemma {:induction false} ItemsApart(a: seq<Json>, b: seq<Json>, r: string, s: string)
    requires |a| == |b| && WriteItems(a) + r == WriteItems(b) + s
    ensures a == b && r == s
    decreases a
  {
    if a == [] {
      assert WriteItems(a) + r == r && WriteItems(b) + s == s;
    } else {
      assert WriteItems(a) + r == Written(a[0]) + (WriteItems(a[1..]) + r);
      assert WriteItems(b) + s == Written(b[0]) + (WriteItems(b[1..]) + s);
      WrittenApart(a[0], b[0], WriteItems(a[1..]) + r, WriteItems(b[1..]) + s);
      ItemsApart(a[1..], b[1..], r, s);
      assert a == [a[0]] + a[1..] && b == [b[0]] + b[1..];
    }
  }

  lemma MembersText(j: Json, m: map<string, Json>, r: string)
    requires j.Obj? && m != map[] && forall k | k in m :: k in j.members && m[k] == j.members[k]
    ensures var k := Key(m);
            WriteMembers(j, m) + r == Quoted(k) + (Written(m[k]) + (WriteMembers(j, m - {k}) + r))
  {
    var k := Key(m);
    var rest := WriteMembers(j, m - {k});
    Assoc(Quoted(k) + Written(m[k]), rest, r);
    Assoc(Quoted(k), Written(m[k]), rest + r);
  }

  lemma PutBack(m: map<string, Json>, k: string)
    requires k in m
    ensures m == (m - {k})[k := m[k]]
  {
  }

  lemma {:induction false} MembersApart(j: Json, m: map<string, Json>, l: Json, n: map<string, Json>, r: string, s: string)
    requires j.Obj? && forall k | k in m :: k in j.members && m[k] == j.members[k]
    requires l.Obj? && forall k | k in n :: k in l.members && n[k] == l.members[k]
    requires |m| == |n| && WriteMembers(j, m) + r == WriteMembers(l, n) + s
    ensures m == n && r == s
    decreases j, |m|
  {
    if m == map[] {
      assert WriteMembers(j, m) + r == r && WriteMembers(l, n) + s == s;
    } else {
      var k, h := Key(m), Key(n);
      assert j.members[k] < j;
      var m', n' := WriteMembers(j, m - {k}), WriteMembers(l, n - {h});
      MembersText(j, m, r);
      MembersText(l, n, s);
      QuotedApart(k, h, Written(m[k]) + (m' + r), Written(n[h]) + (n' + s));
      WrittenApart(m[k], n[h], m' + r, n' + s);
      MembersApart(j, m - {k}, l, n - {h}, r, s);
      PutBack(m, k);
      PutBack(n, h);
    }
  }

  function Tag(j: Json): char {
    match j
    case Null => 'n'
    case Bool(b) => if b then 't' else 'f'
    case Int(_) => 'i'
    case Double(_) => 'd'
    case Str(_) => 's'
    case Arr(_) => '['
    case Obj(_) => '{'
  }

  ghost function Body(j: Json): string {
    match j
    case Null => ""
    case Bool(_) => ""
    case Int(n) => Signed(n)
    case Double(d) => Signed(d.digits) + Signed(d.exponent)
    case Str(s) => Quoted(s)
    case Arr(items) => Ones(|items|) + WriteItems(items)
    case Obj(members) => Ones(|members|) + WriteMembers(j, members)
  }

  lemma TagAndBody(j: Json)
    ensures Written(j) == [Tag(j)] + Body(j)
  {
  }

  lemma {:induction false} WrittenApart(a: Json, b: Json, r: string, s: string)
    requires Written(a) + r == Written(b) + s
    ensures a == b && r == s
    decreases a
  {
    TagAndBody(a);
    TagAndBody(b);
    Assoc([Tag(a)], Body(a), r);
    Assoc([Tag(b)], Body(b), s);
    TagApart(Tag(a), Body(a) + r, Tag(b), Body(b) + s);
    match a
    case Null => assert Body(a) + r == r && Body(b) + s == s;
    case Bool(_) => assert Body(a) + r == r && Body(b) + s == s;
    case Int(n) => SignedApart(n, b.n, r, s);
    case Double(d) =>
      Assoc(Signed(d.digits), Signed(d.exponent), r);
      Assoc(Signed(b.d.digits), Signed(b.d.exponent), s);
      SignedApart(d.digits, b.d.digits, Signed(d.exponent) + r, Signed(b.d.exponent) + s);
      SignedApart(d.exponent, b.d.exponent, r, s);
    case Str(t) => QuotedApart(t, b.s, r, s);
    case Arr(items) =>
      Assoc(Ones(|items|), WriteItems(items), r);
      Assoc(Ones(|b.items|), WriteItems(b.items), s);
      OnesApart(|items|, |b.items|, WriteItems(items) + r, WriteItems(b.items) + s);
      ItemsApart(items, b.items, r, s);
    case Obj(members) =>
      Assoc(Ones(|members|), WriteMembers(a, members), r);
      Assoc(Ones(|b.members|), WriteMembers(b, b.members), s);
      OnesApart(|members|, |b.members|, WriteMembers(a, members) + r, WriteMembers(b, b.members) + s);
      MembersApart(a, members, b, b.members, r, s);
  }

  // ---- And hold nothing but visible characters ----

  predicate Visible(s: string) {
    forall i | 0 <= i < |s| :: s[i] > ' '
  }

  lemma {:induction false} OnesVisible(n: nat)
    ensures Visible(Ones(n))
  {
    if n > 0 {
      OnesVisible(n - 1);
    }
  }

  lemma {:induction false} QuotedVisible(s: string)
    ensures Visible(Chars(s)) && Visible(Quoted(s))
  {
    OnesVisible(|s|);
    if s != "" {
      OnesVisible(s[0] as int);
      QuotedVisible(s[1..]);
    }
  }

  lemma SignedVisible(n: int)
    ensures Visible(Signed(n))
  {
    OnesVisible(Size(n));
  }

  lemma {:induction false} ItemsVisible(items: seq<Json>)
    ensures Visible(WriteItems(items))
    decreases items
  {
    if items != [] {
      WrittenVisible(items[0]);
      ItemsVisible(items[1..]);
    }
  }

  lemma {:induction false} MembersVisible(j: Json, m: map<string, Json>)
    requires j.Obj? && forall k | k in m :: k in j.members && m[k] == j.members[k]
    ensures Visible(WriteMembers(j, m))
    decreases j, |m|
  {
    if m != map[] {
      var k := Key(m);
      assert j.members[k] < j;
      QuotedVisible(k);
      WrittenVisible(m[k]);
      MembersVisible(j, m - {k});
    }
  }

  lemma {:induction false} WrittenVisible(j: Json)
    ensures Visible(Written(j))
    decreases j
  {
    TagAndBody(j);
    match j
    case Int(n) => SignedVisible(n);
    case Double(d) =>
      SignedVisible(d.digits);
      SignedVisible(d.exponent);
    case Str(s) => QuotedVisible(s);
    case Arr(items) =>
      OnesVisible(|items|);
      ItemsVisible(items);
    case Obj(members) =>
      OnesVisible(|members|);
      MembersVisible(j, members);
    case _ =>
  }

  // ---- The codec ----

  ghost function Read(text: string): Option<Json> {
    if exists j :: Written(j) == text then
      var j :| Written(j) == text;
      Some(j)
    else None
  }

  /** There is a codec that meets the law. */
  lemma LawIsMet()
    ensures exists c :: Lawful(c)
  {
    var c := Codec((text: string) => Read(text), (j: Json) => Written(j));
    forall j ensures Read(Written(j)) == Some(j) && Visible(Written(j)) && Written(j)[0] == Tag(j) {
      var found := Read(Written(j)).value;
      WrittenApart(found, j, "", "");
      WrittenVisible(j);
      TagAndBody(j);
    }
    assert Lawful(c);
  }
}
