/**
 * What the usage counters of a stream are, however it ends: the largest counts that any observed
 * event reported, and whether the last reported usage was malformed.
 */
module StreamUsage {
  import opened Seqs
  import opened Json
  import opened Sse
  import opened StreamRules
  import opened StreamRulesTheorems
  import opened StreamPipe
  import opened StreamPipeTheorems
  import opened StreamMarks
  import opened StreamNotice
  import opened StreamGuarantees

  datatype Counter = Input | Output | CacheCreate | CacheRead | Reasoning

  function Of(k: Counter, m: Marks): int32 {
    match k
    case Input => m.inputTokens
    case Output => m.outputTokens
    case CacheCreate => m.cacheCreateTokens
    case CacheRead => m.cacheReadTokens
    case Reasoning => m.reasoningTokens
  }

  function Max(a: int32, b: int32): int32 {
    if b > a then b else a
  }

  /** The largest count under some keys, zero when there is none. */
  function Largest(u: Json, keys: seq<string>): int32 {
    if keys == [] then 0 else Max(Largest(u, keys[..|keys| - 1]), Counted(u.At(keys[|keys| - 1])))
  }

  function KeysOf(k: Counter): seq<string> {
    match k
    case Input => ["input_tokens", "prompt_tokens", "promptTokenCount"]
    case Output => ["output_tokens", "completion_tokens", "candidatesTokenCount"]
    case CacheCreate => ["cache_creation_input_tokens"]
    case CacheRead => ["cache_read_input_tokens", "cachedContentTokenCount"]
    case Reasoning => ["reasoning_tokens", "thoughtsTokenCount"]
  }

  function Counts(u: Json, k: Counter): int32 {
    if k == Reasoning then Max(Largest(u, KeysOf(k)), Counted(u.At("output_tokens_details").At("reasoning_tokens")))
    else Largest(u, KeysOf(k))
  }

  /** What one event reports for a counter. */
  function Reported(c: Route, k: Counter, e: string): int32 {
    match NotedUsage(c, e)
    case None => 0
    case Some(u) => Counts(u, k)
  }

  /** Whether the usage of an event is malformed, if it carries one. */
  function Verdict(c: Route, e: string): Option<bool> {
    match NotedUsage(c, e)
    case None => None
    case Some(u) => Some(InvalidCounts(u))
  }

  /** The largest report of some events, or zero. */
  function Peak(reported: string -> int32, es: seq<string>): int32 {
    if es == [] then 0 else Max(Peak(reported, es[..|es| - 1]), reported(es[|es| - 1]))
  }

  /** The verdict of the last event that has one. */
  predicate LastVerdict(verdict: string -> Option<bool>, es: seq<string>) {
    es != [] && match verdict(es[|es| - 1])
                case Some(v) => v
                case None => LastVerdict(verdict, es[..|es| - 1])
  }

  // ---- One event ----

  lemma GrowIsMax(count: int32, u: Json, key: string)
    requires count >= 0
    ensures Grow(count, u, key) == Max(count, Counted(u.At(key)))
  {
  }

  lemma LargestSnoc(u: Json, keys: seq<string>, key: string)
    ensures Largest(u, keys + [key]) == Max(Largest(u, keys), Counted(u.At(key)))
  {
    assert (keys + [key])[..|keys|] == keys;
  }

  lemma GrowTwice(count: int32, u: Json, a: string, b: string)
    requires count >= 0
    ensures Grow(Grow(count, u, a), u, b) == Max(count, Largest(u, [a, b]))
  {
    GrowIsMax(count, u, a);
    GrowIsMax(Grow(count, u, a), u, b);
    LargestSnoc(u, [], a);
    LargestSnoc(u, [a], b);
    assert [] + [a] == [a] && [a] + [b] == [a, b];
  }

  lemma GrowThrice(count: int32, u: Json, a: string, b: string, d: string)
    requires count >= 0
    ensures Grow(Grow(Grow(count, u, a), u, b), u, d) == Max(count, Largest(u, [a, b, d]))
  {
    GrowTwice(count, u, a, b);
    GrowIsMax(Grow(Grow(count, u, a), u, b), u, d);
    LargestSnoc(u, [a, b], d);
    assert [a, b] + [d] == [a, b, d];
  }

  lemma InputIsMax(count: int32, u: Json)
    requires count >= 0
    ensures Grow(Grow(Grow(count, u, "input_tokens"), u, "prompt_tokens"), u, "promptTokenCount")
         == Max(count, Counts(u, Input))
  {
    GrowThrice(count, u, "input_tokens", "prompt_tokens", "promptTokenCount");
  }

  lemma OutputIsMax(count: int32, u: Json)
    requires count >= 0
    ensures Grow(Grow(Grow(count, u, "output_tokens"), u, "completion_tokens"), u, "candidatesTokenCount")
         == Max(count, Counts(u, Output))
  {
    GrowThrice(count, u, "output_tokens", "completion_tokens", "candidatesTokenCount");
  }

  lemma CacheCreateIsMax(count: int32, u: Json)
    requires count >= 0
    ensures Grow(count, u, "cache_creation_input_tokens") == Max(count, Counts(u, CacheCreate))
  {
    GrowIsMax(count, u, "cache_creation_input_tokens");
    LargestSnoc(u, [], "cache_creation_input_tokens");
    assert [] + ["cache_creation_input_tokens"] == ["cache_creation_input_tokens"];
  }

  lemma CacheReadIsMax(count: int32, u: Json)
    requires count >= 0
    ensures Grow(Grow(count, u, "cache_read_input_tokens"), u, "cachedContentTokenCount")
         == Max(count, Counts(u, CacheRead))
  {
    GrowTwice(count, u, "cache_read_input_tokens", "cachedContentTokenCount");
  }

  lemma ReasoningIsMax(count: int32, u: Json)
    requires count >= 0
    ensures Grow(Grow(Grow(count, u, "reasoning_tokens"), u, "thoughtsTokenCount"),
                 u.At("output_tokens_details"), "reasoning_tokens")
         == Max(count, Counts(u, Reasoning))
  {
    GrowTwice(count, u, "reasoning_tokens", "thoughtsTokenCount");
    GrowIsMax(Grow(Grow(count, u, "reasoning_tokens"), u, "thoughtsTokenCount"),
              u.At("output_tokens_details"), "reasoning_tokens");
  }

  lemma AddUsageIsMax(c: Route, m: Marks, u: Json, k: Counter)
    requires Of(k, m) >= 0
    ensures Of(k, AddUsage(c, m, u)) == Max(Of(k, m), Counts(u, k))
  {
    match k
    case Input => InputIsMax(m.inputTokens, u);
    case Output => OutputIsMax(m.outputTokens, u);
    case CacheCreate => CacheCreateIsMax(m.cacheCreateTokens, u);
    case CacheRead => CacheReadIsMax(m.cacheReadTokens, u);
    case Reasoning => ReasoningIsMax(m.reasoningTokens, u);
  }

  lemma NoteTallies(c: Route, m: Marks, usage: Option<Json>, ended: bool, k: Counter)
    requires Of(k, m) >= 0
    ensures Of(k, Note(c, m, usage, ended)) == Max(Of(k, m), if usage.Some? then Counts(usage.value, k) else 0)
  {
    if usage.Some? { AddUsageIsMax(c, m, usage.value, k); }
  }

  lemma NoteVerdict(c: Route, m: Marks, usage: Option<Json>, ended: bool)
    ensures Note(c, m, usage, ended).malformedUsage
         == if usage.Some? then InvalidCounts(usage.value) else m.malformedUsage
  {
  }

  /** Observing an event takes the larger of each count, and the verdict of the newest usage. */
  lemma ObserveTallies(c: Route, m: Marks, e: string, k: Counter)
    requires Of(k, m) >= 0
    ensures Of(k, Observe(c, m, e)) == Max(Of(k, m), Reported(c, k, e))
    ensures Observe(c, m, e).malformedUsage == if Verdict(c, e).Some? then Verdict(c, e).value else m.malformedUsage
  {
    NoteTallies(c, m, NotedUsage(c, e), Terminal(c, e), k);
    NoteVerdict(c, m, NotedUsage(c, e), Terminal(c, e));
  }

  // ---- Lists of events ----

  /** These are the largest counts, the last verdict and the terminal mark of the events. */
  ghost predicate Tallied(c: Route, m: Marks, es: seq<string>) {
    && (forall k :: Of(k, m) == Peak(e => Reported(c, k, e), es))
    && m.malformedUsage == LastVerdict(e => Verdict(c, e), es)
    && (m.terminalEventSeen <==> exists e :: e in es && Terminal(c, e))
  }

  lemma {:induction false} ObservingCounts(c: Route, policySet: bool, es: seq<string>, k: Counter)
    ensures var m := Observing(RulesOf(c, policySet), es);
            && Of(k, m) == Peak(e => Reported(c, k, e), es) && Of(k, m) >= 0
            && m.malformedUsage == LastVerdict(e => Verdict(c, e), es)
  {
    if es != [] {
      var n, rules := |es| - 1, RulesOf(c, policySet);
      ObservingCounts(c, policySet, es[..n], k);
      ObserveTallies(c, Observing(rules, es[..n]), es[n], k);
      assert Observing(rules, es) == Observe(c, Observing(rules, es[..n]), es[n]);
    }
  }

  lemma ObservingTallies(c: Route, policySet: bool, es: seq<string>)
    ensures Tallied(c, Observing(RulesOf(c, policySet), es), es)
  {
    ObservingCounts(c, policySet, es, Input);
    forall k ensures Of(k, Observing(RulesOf(c, policySet), es)) == Peak(e => Reported(c, k, e), es) {
      ObservingCounts(c, policySet, es, k);
    }
    ObserveIsHonest(c, policySet);
    ObservingTerminal(RulesOf(c, policySet), e => Terminal(c, e), es);
  }

  // ---- Whole runs ----

  /**
   * Every run of `run_transform`, finished or not: there is a leading run of the framed events whose
   * largest counts, last verdict and terminal mark the result carries. Unless an event stopped the
   * run, these are all the events read before it ended.
   */
  lemma TransformCounts(c: Config, route: Route, ticks: seq<Tick>) returns (m: nat, n: nat)
    requires Serves(c, route)
    ensures TransformLasts(c, ticks, m)
    ensures |Events(Bytes(ticks[..m]))| <= n <= |Events(Bytes(ticks))|
    ensures Tallied(route, Transform(c, ticks).pipe.result.marks, Events(Bytes(ticks))[..n])
    ensures Transform(c, ticks).exit != Stopped ==> n == |Events(Bytes(ticks[..m]))|
  {
    m, n := TransformMarks(c, ticks);
    ObservingTallies(route, c.policy.Some?, Events(Bytes(ticks))[..n]);
  }

  /** The same for every run of `run_passthrough` that is not trimmed; an oversized run counts its last chunk too. */
  lemma PassthroughCounts(c: Config, route: Route, ticks: seq<Tick>) returns (m: nat, n: nat)
    requires Serves(c, route) && Untrimmed(c, ticks)
    ensures PassLasts(c, ticks, m)
    ensures |Events(Bytes(ticks[..m]))| <= n <= |Events(Bytes(ticks))|
    ensures Tallied(route, PassThrough(c, ticks).pipe.result.marks, Events(Bytes(ticks))[..n])
    ensures PassThrough(c, ticks).exit in {Running, Ended, KeepaliveFailed} ==> n == |Events(Bytes(ticks[..m]))|
    ensures PassThrough(c, ticks).exit == Oversized ==> m < |ticks| && n == |Events(Bytes(ticks[..m + 1]))|
  {
    m, n := PassthroughMarks(c, ticks);
    ObservingTallies(route, c.policy.Some?, Events(Bytes(ticks))[..n]);
  }

  /** A trimmed run carries the counts, verdict and terminal mark of the events it noticed instead. */
  lemma NoticedCounts(c: Config, route: Route, ticks: seq<Tick>) returns (n: nat)
    requires Serves(c, route)
    ensures n <= |Noticed(c, ticks)| && (PassThrough(c, ticks).exit != Stopped ==> n == |Noticed(c, ticks)|)
    ensures Tallied(route, PassThrough(c, ticks).pipe.result.marks, Noticed(c, ticks)[..n])
  {
    n := NoticedMarks(c, ticks);
    ObservingTallies(route, c.policy.Some?, Noticed(c, ticks)[..n]);
  }

  /** The peak is reached and never passed. */
  lemma {:induction false} PeakIsMaximum(reported: string -> int32, es: seq<string>)
    ensures Peak(reported, es) >= 0 && forall e | e in es :: reported(e) <= Peak(reported, es)
    ensures Peak(reported, es) == 0 || exists e :: e in es && reported(e) == Peak(reported, es)
  {
    if es != [] {
      var n := |es| - 1;
      PeakIsMaximum(reported, es[..n]);
      assert forall e | e in es :: e in es[..n] || e == es[n];
      assert es[n] in es;
    }
  }
}
