/** Sequence helpers shared by the other modules. */
module Seqs {
  datatype Option<+T> = None | Some(value: T)

  /** Concatenation of all the elements, in order. */
  function Flatten<T>(xs: seq<seq<T>>): seq<T> {
    if xs == [] then [] else Flatten(xs[..|xs| - 1]) + xs[|xs| - 1]
  }

  lemma {:induction false} FlattenConcat<T>(a: seq<seq<T>>, b: seq<seq<T>>)
    ensures Flatten(a + b) == Flatten(a) + Flatten(b)
  {
    if b == [] {
      assert a + b == a;
    } else {
      var n := |b| - 1;
      assert (a + b)[..|a + b| - 1] == a + b[..n] && (a + b)[|a + b| - 1] == b[n];
      FlattenConcat(a, b[..n]);
      assert Flatten(a) + Flatten(b[..n]) + b[n] == Flatten(a) + (Flatten(b[..n]) + b[n]);
    }
  }

  lemma FlattenOne<T>(x: seq<T>)
    ensures Flatten([x]) == x
  {
    assert [x][..0] == [];
  }

  lemma FlattenMapSnoc<A, T>(f: A -> seq<T>, xs: seq<A>, n: nat)
    requires n < |xs|
    ensures Flatten(Map(f, xs[..n + 1])) == Flatten(Map(f, xs[..n])) + f(xs[n])
  {
    assert Map(f, xs[..n + 1])[..n] == Map(f, xs[..n]);
  }

  lemma {:induction false} FlattenSingles<A, T>(xs: seq<A>, f: A -> seq<T>, g: A -> T)
    requires forall i | 0 <= i < |xs| :: f(xs[i]) == [g(xs[i])]
    ensures Flatten(Map(f, xs)) == Map(g, xs)
  {
    if xs != [] {
      var n := |xs| - 1;
      FlattenSingles(xs[..n], f, g);
      assert Map(f, xs)[..n] == Map(f, xs[..n]);
    }
  }

  lemma Assoc<T>(a: seq<T>, b: seq<T>, c: seq<T>)
    ensures (a + b) + c == a + (b + c)
  {
  }

  lemma InConcat<T>(a: seq<T>, b: seq<T>, x: T)
    ensures x in a + b <==> x in a || x in b
  {
  }

  lemma PrefixTrans<T>(a: seq<T>, b: seq<T>, c: seq<T>)
    requires a <= b <= c
    ensures a <= c
  {
  }

  function Map<A, B>(f: A -> B, xs: seq<A>): (ys: seq<B>)
    ensures |ys| == |xs|
    ensures forall i | 0 <= i < |xs| :: ys[i] == f(xs[i])
  {
    seq(|xs|, i requires 0 <= i < |xs| => f(xs[i]))
  }

  /** A loop that appends what `f` makes of each element and skips the rest. */
  function FilterMap<A, B>(f: A -> Option<B>, xs: seq<A>): seq<B> {
    if xs == [] then []
    else
      var n := |xs| - 1;
      FilterMap(f, xs[..n]) + (match f(xs[n]) case None => [] case Some(y) => [y])
  }

  lemma FilterMapSnoc<A, B>(f: A -> Option<B>, xs: seq<A>, n: nat)
    requires n < |xs|
    ensures FilterMap(f, xs[..n + 1])
         == FilterMap(f, xs[..n]) + (match f(xs[n]) case None => [] case Some(y) => [y])
  {
    assert xs[..n + 1][..n] == xs[..n];
  }

  lemma {:induction false} FilterMapConcat<A, B>(f: A -> Option<B>, a: seq<A>, b: seq<A>)
    ensures FilterMap(f, a + b) == FilterMap(f, a) + FilterMap(f, b)
  {
    if b == [] {
      assert a + b == a;
    } else {
      var n := |b| - 1;
      assert (a + b)[..|a + b| - 1] == a + b[..n];
      FilterMapConcat(f, a, b[..n]);
    }
  }

  /** When `f` keeps every element, the loop is a map. */
  lemma {:induction false} FilterMapAll<A, B>(f: A -> Option<B>, xs: seq<A>, ys: seq<B>)
    requires |xs| == |ys|
    requires forall i | 0 <= i < |xs| :: f(xs[i]) == Some(ys[i])
    ensures FilterMap(f, xs) == ys
  {
    if xs != [] {
      var n := |xs| - 1;
      FilterMapAll(f, xs[..n], ys[..n]);
      assert ys == ys[..n] + [ys[n]];
    }
  }

  /** When `f` drops every element, nothing is left. */
  lemma {:induction false} FilterMapNone<A, B>(f: A -> Option<B>, xs: seq<A>)
    requires forall x | x in xs :: f(x).None?
    ensures FilterMap(f, xs) == []
  {
    if xs != [] {
      FilterMapNone(f, xs[..|xs| - 1]);
    }
  }

  /** Everything the loop appends has the property that every kept element has. */
  lemma {:induction false} FilterMapForall<A, B>(f: A -> Option<B>, xs: seq<A>, p: B -> bool)
    requires forall i | 0 <= i < |xs| :: f(xs[i]).Some? ==> p(f(xs[i]).value)
    ensures forall i | 0 <= i < |FilterMap(f, xs)| :: p(FilterMap(f, xs)[i])
  {
    if xs != [] {
      FilterMapForall(f, xs[..|xs| - 1], p);
    }
  }

  function AndThen<A, B>(x: Option<A>, f: A -> Option<B>): Option<B> {
    match x
    case None => None
    case Some(y) => f(y)
  }

  function AsSeq<T>(x: Option<T>): seq<T> {
    match x
    case None => []
    case Some(y) => [y]
  }

  /** Two loops in a row make of `xs` what one loop and a map make of `zs`, item by item. */
  lemma {:induction false} FilterMapThrough<A, B, C, D>(f: A -> Option<B>, g: B -> Option<C>, xs: seq<A>,
                                                        h: D -> Option<C>, n: C -> C, zs: seq<D>)
    requires |xs| == |zs|
    requires forall i | 0 <= i < |xs| :: AndThen(f(xs[i]), g) == AndThen(h(zs[i]), z => Some(n(z)))
    ensures FilterMap(g, FilterMap(f, xs)) == Map(n, FilterMap(h, zs))
  {
    if xs != [] {
      var k := |xs| - 1;
      FilterMapThrough(f, g, xs[..k], h, n, zs[..k]);
      FilterMapConcat(g, FilterMap(f, xs[..k]), AsSeq(f(xs[k])));
      assert FilterMap(f, xs) == FilterMap(f, xs[..k]) + AsSeq(f(xs[k]));
      assert FilterMap(g, AsSeq(f(xs[k]))) == AsSeq(AndThen(f(xs[k]), g));
      assert FilterMap(h, zs) == FilterMap(h, zs[..k]) + AsSeq(h(zs[k]));
    }
  }
}
