/**
 * A durable outbox table: rows under a unique key, in the order in which they are read, each
 * either waiting or settled. The SQL statements of the collector are the functions here.
 */
module Outbox {
  import opened Seqs

  /** `settled` holds the error under which a row was put aside, or an empty one. */
  datatype Row<K, V> = Row(key: K, value: V, at: int, settled: Option<string>)

  type Table<K, V> = seq<Row<K, V>>

  /** What a table holds under a key. */
  datatype Status<V> = Absent | Waiting(value: V) | Settled(value: V)

  predicate Keyed<K(==), V>(t: Table<K, V>) {
    forall i, j | 0 <= i < j < |t| :: t[i].key != t[j].key
  }

  // ---- Statements ----

  function Find<K(==), V>(t: Table<K, V>, key: K): Option<Row<K, V>> {
    if t == [] then None
    else if t[|t| - 1].key == key then Some(t[|t| - 1])
    else Find(t[..|t| - 1], key)
  }

  function StatusOf<K(==), V>(t: Table<K, V>, key: K): Status<V> {
    match Find(t, key)
    case None => Absent
    case Some(row) => if row.settled.None? then Waiting(row.value) else Settled(row.value)
  }

  /** How many rows come before a row of that age: all up to the last that is not younger. */
  function Spot<K, V>(t: Table<K, V>, at: int): (k: nat)
    ensures k <= |t|
  {
    if t == [] || t[|t| - 1].at <= at then |t| else Spot(t[..|t| - 1], at)
  }

  function Place<K, V>(t: Table<K, V>, row: Row<K, V>): Table<K, V> {
    t[..Spot(t, row.at)] + ([row] + t[Spot(t, row.at)..])
  }

  /** INSERT … ON CONFLICT DO NOTHING. */
  function Insert<K(==), V>(t: Table<K, V>, key: K, value: V, now: int): Table<K, V> {
    if Find(t, key).Some? then t else Place(t, Row(key, value, now, None))
  }

  /** DELETE … WHERE key = ?. */
  function Delete<K(==), V>(t: Table<K, V>, key: K): Table<K, V> {
    FilterMap((row: Row<K, V>) => if row.key == key then None else Some(row), t)
  }

  function MarkRow<K(==), V>(row: Row<K, V>, key: K, error: string): Row<K, V> {
    if row.key == key && row.settled.None? then row.(settled := Some(error)) else row
  }

  /** UPDATE … SET settled WHERE key = ? AND settled IS NULL. */
  function Mark<K(==), V>(t: Table<K, V>, key: K, error: string): Table<K, V> {
    Map((row: Row<K, V>) => MarkRow(row, key, error), t)
  }

  /** SELECT … WHERE settled IS NULL. */
  function Pending<K, V>(t: Table<K, V>): Table<K, V> {
    FilterMap((row: Row<K, V>) => if row.settled.None? then Some(row) else None, t)
  }

  function Batch<K, V>(t: Table<K, V>, limit: nat): Table<K, V> {
    if |Pending(t)| <= limit then Pending(t) else Pending(t)[..limit]
  }

  // ---- What the statements do to each key ----

  lemma {:induction false} FindIs<K, V>(t: Table<K, V>, key: K)
    ensures Find(t, key).None? <==> forall i | 0 <= i < |t| :: t[i].key != key
    ensures Find(t, key).Some? ==> Find(t, key).value in t && Find(t, key).value.key == key
  {
    if t != [] {
      FindIs(t[..|t| - 1], key);
    }
  }

  lemma FindAt<K, V>(t: Table<K, V>, i: nat)
    requires Keyed(t) && i < |t|
    ensures Find(t, t[i].key) == Some(t[i])
    decreases |t|
  {
    if i < |t| - 1 {
      FindAt(t[..|t| - 1], i);
    }
  }

  lemma {:induction false} FindConcat<K, V>(a: Table<K, V>, b: Table<K, V>, key: K)
    ensures Find(a + b, key) == if Find(b, key).Some? then Find(b, key) else Find(a, key)
  {
    if b == [] {
      assert a + b == a;
    } else {
      assert (a + b)[..|a + b| - 1] == a + b[..|b| - 1];
      FindConcat(a, b[..|b| - 1], key);
    }
  }

  lemma PlaceKeyed<K, V>(t: Table<K, V>, row: Row<K, V>)
    requires Find(t, row.key).None? && Keyed(t)
    ensures Keyed(Place(t, row))
  {
    FindIs(t, row.key);
  }

  lemma PlaceFinds<K, V>(t: Table<K, V>, row: Row<K, V>, key: K)
    requires Find(t, row.key).None?
    ensures Find(Place(t, row), key) == if key == row.key then Some(row) else Find(t, key)
  {
    var k := Spot(t, row.at);
    var a, b := t[..k], t[k..];
    assert t == a + b;
    FindConcat(a, b, key);
    FindConcat(a, b, row.key);
    FindConcat([row], b, key);
    FindConcat(a, [row] + b, key);
    assert [row][..0] == [];
  }

  lemma InsertKeeps<K, V>(t: Table<K, V>, key: K, value: V, now: int, other: K)
    requires Keyed(t)
    ensures Keyed(Insert(t, key, value, now))
    ensures StatusOf(Insert(t, key, value, now), other)
         == if other == key && StatusOf(t, key).Absent? then Waiting(value) else StatusOf(t, other)
  {
    if Find(t, key).None? {
      PlaceKeyed(t, Row(key, value, now, None));
      PlaceFinds(t, Row(key, value, now, None), other);
    }
  }

  /** A deletion looks at one row after the other. */
  lemma DeleteSnoc<K, V>(t: Table<K, V>, key: K)
    requires t != []
    ensures var n := |t| - 1;
            Delete(t, key) == Delete(t[..n], key) + if t[n].key == key then [] else [t[n]]
  {
  }

  lemma {:induction false} DeleteRows<K, V>(t: Table<K, V>, key: K)
    ensures forall row | row in Delete(t, key) :: row in t && row.key != key
  {
    if t != [] {
      DeleteSnoc(t, key);
      DeleteRows(t[..|t| - 1], key);
    }
  }

  lemma KeyedSnoc<K, V>(t: Table<K, V>, row: Row<K, V>)
    requires Keyed(t) && forall other | other in t :: other.key != row.key
    ensures Keyed(t + [row])
  {
  }

  lemma {:induction false} DeleteKeyed<K, V>(t: Table<K, V>, key: K)
    requires Keyed(t)
    ensures Keyed(Delete(t, key))
  {
    if t != [] {
      var n := |t| - 1;
      DeleteSnoc(t, key);
      DeleteKeyed(t[..n], key);
      DeleteRows(t[..n], key);
      if t[n].key != key {
        assert forall row | row in t[..n] :: row.key != t[n].key;
        KeyedSnoc(Delete(t[..n], key), t[n]);
      }
    }
  }

  lemma FindSnoc<K, V>(t: Table<K, V>, row: Row<K, V>, key: K)
    ensures Find(t + [row], key) == if row.key == key then Some(row) else Find(t, key)
  {
    assert (t + [row])[..|t|] == t;
  }

  lemma {:induction false} DeleteFinds<K, V>(t: Table<K, V>, key: K, other: K)
    ensures Find(Delete(t, key), other) == if other == key then None else Find(t, other)
  {
    if t != [] {
      var n := |t| - 1;
      DeleteSnoc(t, key);
      DeleteFinds(t[..n], key, other);
      FindSnoc(Delete(t[..n], key), t[n], other);
      assert Delete(t[..n], key) + [] == Delete(t[..n], key);
    }
  }

  lemma DeleteKeeps<K, V>(t: Table<K, V>, key: K, other: K)
    requires Keyed(t)
    ensures Keyed(Delete(t, key))
    ensures Find(Delete(t, key), other) == if other == key then None else Find(t, other)
    ensures forall i | 0 <= i < |Delete(t, key)| :: Delete(t, key)[i] in t
  {
    DeleteKeyed(t, key);
    DeleteFinds(t, key, other);
    DeleteRows(t, key);
  }

  lemma {:induction false} MarkKeeps<K, V>(t: Table<K, V>, key: K, error: string, other: K)
    requires Keyed(t)
    ensures Keyed(Mark(t, key, error))
    ensures Find(Mark(t, key, error), other)
         == match Find(t, other) case None => None case Some(row) => Some(MarkRow(row, key, error))
  {
    if t != [] {
      var n := |t| - 1;
      MarkKeeps(t[..n], key, error, other);
      assert Mark(t, key, error)[..n] == Mark(t[..n], key, error);
    }
  }

  // ---- What settling a row does to the pending ones ----

  lemma {:induction false} PendingDelete<K, V>(t: Table<K, V>, key: K)
    ensures Pending(Delete(t, key)) == Delete(Pending(t), key)
  {
    if t != [] {
      var n := |t| - 1;
      PendingDelete(t[..n], key);
      var one := [t[n]];
      FilterMapConcat((row: Row<K, V>) => if row.key == key then None else Some(row), Pending(t[..n]),
                      if t[n].settled.None? then one else []);
      FilterMapConcat((row: Row<K, V>) => if row.settled.None? then Some(row) else None, Delete(t[..n], key),
                      if t[n].key == key then [] else one);
      assert one[..0] == [];
    }
  }

  lemma {:induction false} PendingMark<K, V>(t: Table<K, V>, key: K, error: string)
    ensures Pending(Mark(t, key, error)) == Delete(Pending(t), key)
  {
    if t != [] {
      var n := |t| - 1;
      PendingMark(t[..n], key, error);
      assert Mark(t, key, error)[..n] == Mark(t[..n], key, error);
      var one := [t[n]];
      FilterMapConcat((row: Row<K, V>) => if row.key == key then None else Some(row), Pending(t[..n]),
                      if t[n].settled.None? then one else []);
      assert one[..0] == [];
    }
  }

  lemma {:induction false} PendingKeyed<K, V>(t: Table<K, V>)
    requires Keyed(t)
    ensures Keyed(Pending(t))
    ensures forall i | 0 <= i < |Pending(t)| :: Pending(t)[i] in t && Pending(t)[i].settled.None?
  {
    if t != [] {
      PendingKeyed(t[..|t| - 1]);
    }
  }

  /** Deleting a key that is not there changes nothing. */
  lemma {:induction false} DeleteAbsent<K, V>(t: Table<K, V>, key: K)
    requires forall i | 0 <= i < |t| :: t[i].key != key
    ensures Delete(t, key) == t
  {
    FilterMapAll((row: Row<K, V>) => if row.key == key then None else Some(row), t, t);
  }

  lemma DeleteOne<K, V>(a: Table<K, V>, row: Row<K, V>, b: Table<K, V>)
    requires Keyed(a + ([row] + b))
    ensures Delete(a + ([row] + b), row.key) == a + b
  {
    var keep := (r: Row<K, V>) => if r.key == row.key then None else Some(r);
    var all := a + ([row] + b);
    FilterMapConcat(keep, a, [row] + b);
    FilterMapConcat(keep, [row], b);
    assert all[|a|] == row;
    forall i | 0 <= i < |a| ensures a[i].key != row.key { assert all[i] == a[i]; }
    forall i | 0 <= i < |b| ensures b[i].key != row.key { assert all[|a| + 1 + i] == b[i]; }
    DeleteAbsent(a, row.key);
    DeleteAbsent(b, row.key);
    assert FilterMap(keep, [row]) == [];
  }
}
