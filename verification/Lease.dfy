/**
 * The history of a request, lease by lease: what was asked of the Platform and the Provider under
 * each lease, in order, and the settlement and retry properties of such a history. The k-th grant
 * of a request carries the k-th lease: the Platform hands out a fresh token each time.
 */
module Lease {
  import opened Seqs
  import opened Dispatch
  import opened Forwarder
  import F = Failover

  datatype Step =
    | Evidenced(acked: bool)
    | Called(result: ForwardResult)
    | Aborted(disposition: AbortDisposition, acked: bool)
    | Recorded
    | Reported
    | Deferred
    | Unconverted
  {
    predicate IsUsage() {
      Recorded? || Reported?
    }
  }

  /** One lease: the account it was granted on, the id and exclusions it was asked for with, its steps. */
  datatype Attempt = Attempt(account: int, sequence: nat, excluded: set<int>, steps: seq<Step>)

  datatype Capability =
    | Messages | ChatCompletions | Responses | ResponsesSubpath | CountTokens | Models | Search | Embeddings
    | ImagesSync | ImagesAsync | ImagesBatch | Videos | Realtime | GeminiModels | GeminiGenerate
    | Antigravity | AudioTts | AudioStt
  {
    predicate IsChat() {
      this in {Messages, ChatCompletions, Responses, ResponsesSubpath, GeminiGenerate}
    }

    /** Calls that reserve a lease for routing but represent no billable generation. */
    predicate NonBillable() {
      this in {Models, GeminiModels, CountTokens, ResponsesSubpath}
    }
  }

  /** The request as far as the lease loop cares. */
  datatype Request = Request(
    capability: Capability, isStream: bool, canFailover: bool, persistentCreate: bool, bodyEmpty: bool)

  /** An incomplete stream that still carried a valid, non-zero usage. */
  predicate Late(req: Request, r: ForwardResult) {
    && req.isStream && r.streamIncomplete && !r.malformedUsage && r.providerUsageJson != ""
    && (r.inputTokens > 0 || r.outputTokens > 0 || r.cacheCreateTokens > 0 || r.cacheReadTokens > 0
        || r.reasoningTokens > 0)
  }

  /** The Provider said no, before any output, in a way that is worth another try. */
  predicate Retryable(req: Request, r: ForwardResult) {
    && IsExplicitRejection(r) && !r.outputStarted && req.canFailover && IsRetryableStatus(r.statusCode)
    && !r.streamIncomplete && !r.clientDisconnect && !r.malformedUsage
  }

  // ---- Settlement of one lease ----

  /** At most one usage event. */
  predicate UsageOnce(s: seq<Step>) {
    forall i, j | 0 <= i < j < |s| && s[i].IsUsage() :: !s[j].IsUsage()
  }

  ghost predicate HasUsage(s: seq<Step>) {
    exists u :: u in s && u.IsUsage()
  }

  ghost predicate CalledLate(req: Request, s: seq<Step>) {
    exists c :: c in s && c.Called? && Late(req, c.result)
  }

  ghost predicate IsAborted(s: seq<Step>) {
    exists a :: a in s && a.Aborted?
  }

  ghost predicate CalledMalformed(s: seq<Step>) {
    exists c :: c in s && c.Called? && c.result.malformedUsage
  }

  ghost predicate Settled(s: seq<Step>) {
    IsAborted(s) || HasUsage(s) || Deferred in s
  }

  ghost predicate Sound(req: Request, s: seq<Step>) {
    && UsageOnce(s)
    // An acknowledged no-charge abort excludes a usage event.
    && (Aborted(NoCharge, true) in s ==> !HasUsage(s))
    // After an Unknown abort there is one exactly when the stream was incomplete with valid usage.
    && (Aborted(Unknown, true) in s || Aborted(Unknown, false) in s ==> (HasUsage(s) <==> CalledLate(req, s)))
    // Late usage is never dropped, malformed usage never reported.
    && (CalledLate(req, s) ==> HasUsage(s))
    && (CalledMalformed(s) ==> !HasUsage(s))
    // A usage event needs a call, and a deferred task has none yet.
    && (HasUsage(s) ==> exists c :: c in s && c.Called?)
    && (Deferred in s ==> !HasUsage(s))
    // Nothing stays open except after a request-conversion failure, and that does.
    && (Settled(s) || Unconverted in s)
    && (Unconverted in s && !req.persistentCreate ==> !Settled(s))
  }

  // ---- Retries ----

  /** A lease that is followed by another one. */
  predicate Retried(req: Request, s: seq<Step>) {
    && |s| == 3 && s[1].Called? && s[2].Aborted?
    && s == RetriedSteps(s[1].result, s[2].acked) && Retryable(req, s[1].result)
  }

  function RetriedSteps(r: ForwardResult, acked: bool): seq<Step> {
    [Evidenced(true), Called(r), Aborted(NoCharge, acked)]
  }

  /** The Provider is called at most once per lease, right after acknowledged forwarding evidence. */
  predicate EvidenceFirst(s: seq<Step>) {
    forall j | 0 <= j < |s| && s[j].Called? :: j == 1 && s[0] == Evidenced(true)
  }

  function FailureOf(a: Attempt): Option<F.Failure> {
    if |a.steps| > 1 && a.steps[1].Called? then Some(F.Failure(a.account, a.steps[1].result.statusCode)) else None
  }

  /** The failures that a history amounts to. */
  function Failures(h: seq<Attempt>): seq<F.Failure> {
    FilterMap(FailureOf, h)
  }

  function FailoverAfter(h: seq<Attempt>): F.State {
    F.Replay(F.Initial(10, 3), Failures(h))
  }

  /** The k-th lease was asked for under a fresh id, excluding exactly the accounts failed by then. */
  predicate AskedRightly(h: seq<Attempt>, k: nat)
    requires k < |h|
  {
    h[k].sequence == k && h[k].excluded == FailoverAfter(h[..k]).failed
  }

  /** Everything but the last lease is retried. */
  ghost predicate AllRetried(req: Request, h: seq<Attempt>) {
    forall k | 0 <= k < |h| :: Retried(req, h[k].steps) && AskedRightly(h, k)
  }

  /** A lease is settled soundly and called only after its evidence: one fact, to be passed on as a whole. */
  ghost const WellKept: (Request, seq<Step>) -> bool := (req, s) => Sound(req, s) && EvidenceFirst(s)

  /** What a finished request guarantees. */
  ghost predicate WellSettled(req: Request, h: seq<Attempt>) {
    && (forall k | 0 <= k < |h| :: WellKept(req, h[k].steps) && AskedRightly(h, k))
    && (forall k | 0 <= k < |h| - 1 :: Retried(req, h[k].steps))
  }

  lemma RetriedIsSound(req: Request, s: seq<Step>)
    requires Retried(req, s)
    ensures WellKept(req, s)
  {
    assert s[2].Aborted? && s[2] in s;
    assert Sound(req, s) && EvidenceFirst(s);
  }

  lemma AskedBefore(h: seq<Attempt>, a: Attempt, k: nat)
    requires k < |h|
    ensures AskedRightly(h + [a], k) == AskedRightly(h, k)
  {
    assert (h + [a])[..k] == h[..k];
  }

  /** One more lease, retried. */
  lemma RetriedSnoc(req: Request, h: seq<Attempt>, a: Attempt)
    requires AllRetried(req, h) && Retried(req, a.steps)
    requires a.sequence == |h| && a.excluded == FailoverAfter(h).failed
    ensures AllRetried(req, h + [a])
    ensures var r := a.steps[1].result;
            FailoverAfter(h + [a]) == F.HandleError(FailoverAfter(h), a.account, r.statusCode).0
  {
    var h' := h + [a];
    forall k | 0 <= k < |h'| ensures Retried(req, h'[k].steps) && AskedRightly(h', k) {
      if k < |h| { AskedBefore(h, a, k); } else { assert h'[..k] == h; }
    }
    FilterMapConcat(FailureOf, h, [a]);
    assert [a][..0] == [] && FilterMap(FailureOf, [a]) == [FailureOf(a).value];
    var errors := Failures(h) + [FailureOf(a).value];
    assert errors[..|errors| - 1] == Failures(h);
  }

  /** A request that ends with these leases all retried, or with one more that is sound, is well settled. */
  lemma EndsSettled(req: Request, h: seq<Attempt>)
    requires AllRetried(req, h)
    ensures WellSettled(req, h)
  {
    forall k | 0 <= k < |h| ensures WellKept(req, h[k].steps) {
      RetriedIsSound(req, h[k].steps);
    }
  }

  lemma EndsSettledWith(req: Request, h: seq<Attempt>, a: Attempt)
    requires AllRetried(req, h) && WellKept(req, a.steps)
    requires a.sequence == |h| && a.excluded == FailoverAfter(h).failed
    ensures WellSettled(req, h + [a])
  {
    var h' := h + [a];
    forall k | 0 <= k < |h'|
      ensures WellKept(req, h'[k].steps) && AskedRightly(h', k)
      ensures k < |h| ==> Retried(req, h'[k].steps)
    {
      if k < |h| {
        AskedBefore(h, a, k);
        RetriedIsSound(req, h[k].steps);
        assert h'[k] == h[k];
      } else {
        assert h'[..k] == h && h'[k] == a;
      }
    }
  }
}
