/** The speculative auth cache and the version polls that flush it. */
module AuthCache {
  import opened Seqs

  /** One answer of the version store. */
  datatype Poll = Missing | Found(version: string)

  // ---- The version tracker ----

  /** What the tracker remembers: the last version, when the last poll found one. */
  datatype Tracker = Tracker(initialized: bool, last: string)

  const FRESH := Tracker(false, "")

  function Remember(p: Poll): Tracker {
    match p
    case Missing => FRESH
    case Found(version) => Tracker(true, version)
  }

  predicate Flushes(t: Tracker, p: Poll) {
    t.initialized && (p.Missing? || t.last != p.version)
  }

  class VersionTracker {
    var initialized: bool
    var last: string

    function Now(): Tracker
      reads this
    {
      Tracker(initialized, last)
    }

    constructor ()
      ensures Now() == FRESH
    {
      initialized, last := false, "";
    }

    /** `observe`. */
    method Observe(found: bool, version: string) returns (flush: bool)
      modifies this
      ensures var p := if found then Found(version) else Missing;
              Now() == Remember(p) && flush == Flushes(old(Now()), p)
    {
      if !found {
        flush := initialized;
        initialized, last := false, "";
        return;
      }
      if !initialized {
        initialized, last := true, version;
        return false;
      }
      if last == version {
        return false;
      }
      last := version;
      flush := true;
    }
  }

  /** No poll of the sequence flushes. */
  predicate Quiet(t: Tracker, polls: seq<Poll>)
    decreases |polls|
  {
    polls == [] || (!Flushes(t, polls[0]) && Quiet(Remember(polls[0]), polls[1..]))
  }

  /** Some misses, then one version over and over. */
  predicate MissesThenConstant(polls: seq<Poll>) {
    forall i | 0 < i < |polls| :: polls[i - 1].Missing? || polls[i] == polls[i - 1]
  }

  lemma ShapeCons(first: Poll, polls: seq<Poll>)
    requires polls != []
    ensures MissesThenConstant([first] + polls)
       <==> (first.Missing? || polls[0] == first) && MissesThenConstant(polls)
  {
    var all := [first] + polls;
    assert all[0] == first && forall i | 0 <= i < |polls| :: all[i + 1] == polls[i];
    if MissesThenConstant(all) {
      forall i | 0 < i < |polls| ensures polls[i - 1].Missing? || polls[i] == polls[i - 1] {
        assert all[i + 1 - 1].Missing? || all[i + 1] == all[i + 1 - 1];
      }
      assert all[1 - 1].Missing? || all[1] == all[1 - 1];
    }
  }

  /** A tracker is quiet exactly on misses followed by one constant version, counting the poll before. */
  lemma {:induction false} QuietExactly(first: Poll, polls: seq<Poll>)
    ensures Quiet(Remember(first), polls) <==> MissesThenConstant([first] + polls)
    decreases |polls|
  {
    if polls != [] {
      ShapeCons(first, polls);
      QuietExactly(polls[0], polls[1..]);
      assert [polls[0]] + polls[1..] == polls;
    }
  }

  lemma {:induction false} QuietSnoc(t: Tracker, polls: seq<Poll>, p: Poll, last: Tracker)
    requires last == if polls == [] then t else Remember(polls[|polls| - 1])
    ensures Quiet(t, polls + [p]) <==> Quiet(t, polls) && !Flushes(last, p)
    decreases |polls|
  {
    if polls != [] {
      assert (polls + [p])[1..] == polls[1..] + [p];
      QuietSnoc(Remember(polls[0]), polls[1..], p, last);
    }
  }

  // ---- The cache ----

  type Entries<S> = map<string, S>

  function Inserted<S>(entries: Entries<S>, key: string, snapshot: S, max: nat): Entries<S> {
    (if |entries| >= max then map[] else entries)[key := snapshot]
  }

  class SpeculativeCache<S> {
    var entries: Entries<S>
    const maxEntries: nat

    constructor (maxEntries: nat)
      ensures entries == map[] && this.maxEntries == maxEntries
    {
      entries := map[];
      this.maxEntries := maxEntries;
    }

    method Lookup(key: string) returns (r: Option<S>)
      ensures r == if key in entries then Some(entries[key]) else None
    {
      if key !in entries {
        return None;
      }
      r := Some(entries[key]);
    }

    method Insert(key: string, snapshot: S)
      modifies this
      ensures entries == Inserted(old(entries), key, snapshot, maxEntries)
    {
      if |entries| >= maxEntries {
        entries := map[];
      }
      entries := entries[key := snapshot];
    }

    method Evict(key: string)
      modifies this
      ensures entries == old(entries) - {key}
    {
      entries := entries - {key};
    }

    method EvictAll()
      modifies this
      ensures entries == map[]
    {
      entries := map[];
    }
  }

  /** One turn of the poll loop: observe, and flush the cache when the tracker says so. */
  method PollOnce<S>(tracker: VersionTracker, cache: SpeculativeCache<S>, p: Poll)
    modifies tracker, cache
    ensures tracker.Now() == Remember(p)
    ensures cache.entries == if Flushes(old(tracker.Now()), p) then map[] else old(cache.entries)
  {
    var flush := tracker.Observe(p.Found?, if p.Found? then p.version else "");
    if flush {
      cache.EvictAll();
    }
  }

  // ---- Runs ----

  datatype Op<S> = Insert(key: string, snapshot: S) | Evict(key: string) | EvictAll | Polled(poll: Poll)

  datatype State<S> = State(entries: Entries<S>, tracker: Tracker)

  function Step<S>(s: State<S>, op: Op<S>, max: nat): State<S> {
    match op
    case Insert(key, snapshot) => s.(entries := Inserted(s.entries, key, snapshot, max))
    case Evict(key) => s.(entries := s.entries - {key})
    case EvictAll => s.(entries := map[])
    case Polled(p) => State(if Flushes(s.tracker, p) then map[] else s.entries, Remember(p))
  }

  function Run<S>(ops: seq<Op<S>>, max: nat): State<S> {
    if ops == [] then State(map[], FRESH) else Step(Run(ops[..|ops| - 1], max), ops[|ops| - 1], max)
  }

  function AsPoll<S>(op: Op<S>): Option<Poll> {
    match op
    case Polled(p) => Some(p)
    case _ => None
  }

  function Polls<S>(ops: seq<Op<S>>): seq<Poll> {
    FilterMap((op: Op<S>) => AsPoll(op), ops)
  }

  /** The poll that came last, a miss before the first one. */
  function LastPoll<S>(ops: seq<Op<S>>): Poll {
    if ops == [] then Missing
    else if ops[|ops| - 1].Polled? then ops[|ops| - 1].poll
    else LastPoll(ops[..|ops| - 1])
  }

  lemma {:induction false} TrackerIsLast<S>(ops: seq<Op<S>>, max: nat)
    ensures Run(ops, max).tracker == Remember(LastPoll(ops))
  {
    if ops != [] {
      TrackerIsLast(ops[..|ops| - 1], max);
    }
  }

  /** The cache holds at most as many entries as allowed, and one even when none are. */
  lemma {:induction false} SizeIsBounded<S>(ops: seq<Op<S>>, max: nat)
    ensures |Run(ops, max).entries| <= if max == 0 then 1 else max
  {
    if ops != [] {
      var before := Run(ops[..|ops| - 1], max).entries;
      SizeIsBounded(ops[..|ops| - 1], max);
      match ops[|ops| - 1]
      case Insert(key, snapshot) =>
        var kept: Entries<S> := if |before| >= max then map[] else before;
        assert kept[key := snapshot].Keys == kept.Keys + {key};
      case Evict(key) => SubsetSize((before - {key}).Keys, before.Keys);
      case _ =>
    }
  }

  lemma SubsetSize(a: set<string>, b: set<string>)
    requires a <= b
    ensures |a| <= |b|
  {
    assert b == a + (b - a);
  }

  predicate NoInsert<S>(ops: seq<Op<S>>, key: string) {
    forall i | 0 <= i < |ops| :: ops[i].Insert? ==> ops[i].key != key
  }

  /** What has become of an entry since its insertion. */
  lemma {:induction false} Survives<S>(before: seq<Op<S>>, key: string, snapshot: S, after: seq<Op<S>>, max: nat)
    requires NoInsert(after, key) && key in Run(before + [Insert(key, snapshot)] + after, max).entries
    ensures Run(before + [Insert(key, snapshot)] + after, max).entries[key] == snapshot
    ensures Quiet(Remember(LastPoll(before)), Polls(after))
    decreases |after|
  {
    var start := before + [Insert(key, snapshot)];
    if after == [] {
      assert start + after == start && start[..|start| - 1] == before;
    } else {
      var less, op := after[..|after| - 1], after[|after| - 1];
      assert (start + after)[..|start + after| - 1] == start + less;
      Survives(before, key, snapshot, less, max);
      assert Polls(after) == Polls(less) + AsSeq(AsPoll(op));
      if op.Polled? {
        TrackerIsLast(start + less, max);
        LastPollSince(start, less);
        assert start[..|start| - 1] == before;
        QuietSnoc(Remember(LastPoll(before)), Polls(less), op.poll, Remember(LastPoll(start + less)));
      } else {
        assert Polls(after) == Polls(less);
      }
    }
  }

  lemma {:induction false} LastPollSince<S>(start: seq<Op<S>>, ops: seq<Op<S>>)
    ensures LastPoll(start + ops) == if Polls(ops) == [] then LastPoll(start) else Polls(ops)[|Polls(ops)| - 1]
  {
    if ops == [] {
      assert start + ops == start;
    } else {
      assert (start + ops)[..|start + ops| - 1] == start + ops[..|ops| - 1];
      LastPollSince(start, ops[..|ops| - 1]);
    }
  }

  /**
   * A hit is the last snapshot inserted for that key, and the polls it has seen, counting the one
   * before its insertion, are some misses followed by one constant version.
   */
  lemma HitIsCurrent<S>(before: seq<Op<S>>, key: string, snapshot: S, after: seq<Op<S>>, max: nat)
    requires NoInsert(after, key) && key in Run(before + [Insert(key, snapshot)] + after, max).entries
    ensures Run(before + [Insert(key, snapshot)] + after, max).entries[key] == snapshot
    ensures MissesThenConstant([LastPoll(before)] + Polls(after))
  {
    Survives(before, key, snapshot, after, max);
    QuietExactly(LastPoll(before), Polls(after));
  }

  /** Every hit was inserted at some time, and not again since. */
  lemma {:induction false} HitWasInserted<S>(ops: seq<Op<S>>, key: string, max: nat) returns (k: nat)
    requires key in Run(ops, max).entries
    ensures k < |ops| && ops[k].Insert? && ops[k].key == key && NoInsert(ops[k + 1..], key)
  {
    var n := |ops| - 1;
    if ops[n].Insert? && ops[n].key == key {
      k := n;
    } else {
      k := HitWasInserted(ops[..n], key, max);
      assert ops[k + 1..] == ops[..n][k + 1..] + [ops[n]];
    }
  }
}
