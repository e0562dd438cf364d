/** The Platform's RPC answers and the small decisions taken on them. */
module Dispatch {
  datatype Outcome = Ok | Wait | Rejected | Reauth

  const PLATFORM_UNAVAILABLE: int := 12

  datatype RpcAck = RpcAck(accepted: bool, duplicate: bool, retryable: bool) {
    predicate Acknowledged() {
      accepted || duplicate
    }
  }

  predicate IsRetryableDispatch(outcome: Outcome, rejectCode: int) {
    outcome == Rejected && rejectCode == PLATFORM_UNAVAILABLE
  }

  datatype AbortDisposition = NoCharge | Unknown | Safe

  function Min(a: int, b: int): int {
    if a < b then a else b
  }

  function Shift(n: nat): nat {
    if n == 0 then 1 else 2 * Shift(n - 1)
  }

  function DispatchRetryDelay(retry: int): int {
    if retry <= 0 then 50 else Min(1000, 50 * Shift(Min(retry - 1, 5)))
  }

  const BASE_DELAY_MS: nat := 300
  const MAX_DELAY_MS: nat := 3000

  /** RetryPolicy::compute_delay, with its 32-bit product. */
  function ComputeDelay(attempt: nat): nat {
    Min(BASE_DELAY_MS * Shift(Min(attempt, 10)) % 0x1_0000_0000, MAX_DELAY_MS)
  }

  predicate IsRetryableStatus(status: int) {
    status == 401 || status == 403 || status == 429 || status == 529 || status >= 500
  }

  lemma {:induction false} ShiftGrows(a: nat, b: nat)
    requires a <= b
    ensures 1 <= Shift(a) <= Shift(b)
    decreases b
  {
    if a < b { ShiftGrows(a, b - 1); } else if b > 0 { ShiftGrows(a - 1, b - 1); }
  }

  /** The delays before another dispatch grow and stay within 50 ms to one second. */
  lemma DispatchDelayBacksOff(i: int, j: int)
    requires i <= j
    ensures 50 <= DispatchRetryDelay(i) <= DispatchRetryDelay(j) <= 1000
  {
    if i > 0 { ShiftGrows(Min(i - 1, 5), Min(j - 1, 5)); }
    if j > 0 { ShiftGrows(0, Min(j - 1, 5)); }
  }

  /** Retry delays grow with the attempt: the 32-bit product never wraps. */
  lemma DelayBacksOff(i: nat, j: nat)
    requires i <= j
    ensures BASE_DELAY_MS <= ComputeDelay(i) <= ComputeDelay(j) <= MAX_DELAY_MS
  {
    ShiftGrows(0, Min(i, 10));
    ShiftGrows(Min(i, 10), Min(j, 10));
    ShiftGrows(Min(j, 10), 10);
    assert Shift(10) == 1024 by {
      assert Shift(5) == 32;
      assert Shift(8) == 256;
    }
  }
}
