/** Account failover: which accounts count as failed, and how often a request may be tried again. */
module Failover {
  datatype Action = Continue | SwitchAccount | Exhausted

  datatype State = State(
    maxSwitches: nat, maxSameRetries: nat, switchCount: nat, failed: set<int>, retries: map<int, nat>)

  function Initial(maxSwitches: nat, maxSameRetries: nat): State {
    State(maxSwitches, maxSameRetries, 0, {}, map[])
  }

  /** Authentication, permission and rate-limit errors condemn the account at once. */
  predicate Condemns(status: int) {
    status == 401 || status == 403 || status == 429
  }

  function Retries(s: State, account: int): nat {
    if account in s.retries then s.retries[account] else 0
  }

  function Switched(s: State, account: int): (State, Action) {
    var s' := s.(failed := s.failed + {account}, switchCount := s.switchCount + 1);
    (s', if s'.switchCount > s.maxSwitches then Exhausted else SwitchAccount)
  }

  function HandleError(s: State, account: int, status: int): (State, Action) {
    if Condemns(status) then Switched(s, account)
    else
      var n := Retries(s, account) + 1;
      var s' := s.(retries := s.retries[account := n]);
      if n <= s.maxSameRetries then (s', Continue) else Switched(s', account)
  }

  class FailoverController {
    const maxSwitches: nat
    const maxSameRetries: nat
    var switchCount: nat
    var failedAccounts: set<int>
    var sameAccountRetries: map<int, nat>

    constructor (maxSwitches: nat := 10, maxSameRetries: nat := 3)
      ensures Now() == Initial(maxSwitches, maxSameRetries)
    {
      this.maxSwitches, this.maxSameRetries := maxSwitches, maxSameRetries;
      switchCount, failedAccounts, sameAccountRetries := 0, {}, map[];
    }

    function Now(): State
      reads this
    {
      State(maxSwitches, maxSameRetries, switchCount, failedAccounts, sameAccountRetries)
    }

    method OnError(account: int, status: int) returns (action: Action)
      modifies this
      ensures (Now(), action) == HandleError(old(Now()), account, status)
    {
      if Condemns(status) {
        failedAccounts := failedAccounts + {account};
        switchCount := switchCount + 1;
        return if switchCount > maxSwitches then Exhausted else SwitchAccount;
      }
      var n := Retries(Now(), account) + 1;
      sameAccountRetries := sameAccountRetries[account := n];
      if n <= maxSameRetries { return Continue; }
      failedAccounts := failedAccounts + {account};
      switchCount := switchCount + 1;
      if switchCount > maxSwitches { return Exhausted; }
      action := SwitchAccount;
    }
  }

  // ---- What the counters mean over a whole request ----

  datatype Failure = Failure(account: int, status: int)

  function Replay(s: State, errors: seq<Failure>): State {
    if errors == [] then s
    else
      var last := errors[|errors| - 1];
      HandleError(Replay(s, errors[..|errors| - 1]), last.account, last.status).0
  }

  /** The errors of an account that do not condemn it at once. */
  function SoftErrors(errors: seq<Failure>, account: int): nat {
    if errors == [] then 0
    else
      var last := errors[|errors| - 1];
      SoftErrors(errors[..|errors| - 1], account)
      + if last.account == account && !Condemns(last.status) then 1 else 0
  }

  ghost predicate Condemned(errors: seq<Failure>, account: int) {
    exists e :: e in errors && e.account == account && Condemns(e.status)
  }

  /** An account is failed exactly when one error condemned it or its soft errors passed the limit. */
  lemma {:induction false} FailedExactly(maxSwitches: nat, maxSameRetries: nat, errors: seq<Failure>, account: int)
    ensures var s := Replay(Initial(maxSwitches, maxSameRetries), errors);
            && s.maxSwitches == maxSwitches && s.maxSameRetries == maxSameRetries
            && Retries(s, account) == SoftErrors(errors, account)
            && (account in s.failed <==> Condemned(errors, account) || SoftErrors(errors, account) > maxSameRetries)
  {
    if errors != [] {
      var n := |errors| - 1;
      var rest, last := errors[..n], errors[n];
      FailedExactly(maxSwitches, maxSameRetries, rest, account);
      FailedExactly(maxSwitches, maxSameRetries, rest, last.account);
      assert errors == rest + [last];
      assert Condemned(errors, account) <==>
             Condemned(rest, account) || (last.account == account && Condemns(last.status));
    }
  }

  // ---- The budget of tries ----

  /** The same-account retries that the accounts still have. */
  function RetriesLeft(s: State, accounts: set<int>): set<(int, int)> {
    set a, k | a in accounts && 1 <= k <= s.maxSameRetries && k > Retries(s, a) :: (a, k)
  }

  function Budget(s: State, accounts: set<int>): int {
    |RetriesLeft(s, accounts)| + s.maxSwitches - s.switchCount
  }

  lemma Member<T>(s: set<T>) returns (a: T)
    requires s != {}
    ensures a in s
  {
    a :| a in s;
  }

  ghost function Grid(accounts: set<int>, n: nat): set<(int, int)> {
    set a, k | a in accounts && 1 <= k <= n :: (a, k)
  }

  lemma GridSplits(accounts: set<int>, a: int, n: nat)
    requires a in accounts
    ensures |Grid(accounts, n)| == n + |Grid(accounts - {a}, n)|
  {
    var here, there := set k | 1 <= k <= n :: (a, k), Grid(accounts - {a}, n);
    Column(a, n);
    assert Grid(accounts, n) == here + there;
    assert here !! there;
  }

  lemma {:induction false} Product(accounts: set<int>, n: nat)
    ensures |Grid(accounts, n)| == n * |accounts|
    decreases accounts
  {
    if accounts != {} {
      var a := Member(accounts);
      Product(accounts - {a}, n);
      GridSplits(accounts, a, n);
      Distribute(n, |accounts - {a}|);
    } else {
      assert Grid(accounts, n) == {};
    }
  }

  lemma Distribute(n: nat, m: nat)
    ensures n * (m + 1) == n * m + n
  {
  }

  lemma {:induction false} Column(a: int, n: nat)
    ensures |set k | 1 <= k <= n :: (a, k)| == n
  {
    if n > 0 {
      Column(a, n - 1);
      assert (set k | 1 <= k <= n :: (a, k)) == (set k | 1 <= k <= n - 1 :: (a, k)) + {(a, n)};
    } else {
      assert (set k | 1 <= k <= n :: (a, k)) == {};
    }
  }

  lemma InitialBudget(maxSwitches: nat, maxSameRetries: nat, accounts: set<int>)
    ensures Budget(Initial(maxSwitches, maxSameRetries), accounts) == maxSwitches + maxSameRetries * |accounts|
  {
    var s := Initial(maxSwitches, maxSameRetries);
    assert RetriesLeft(s, accounts) == Grid(accounts, maxSameRetries);
    Product(accounts, maxSameRetries);
  }

  /** Every error that allows another try uses up the budget. */
  lemma ErrorSpends(s: State, accounts: set<int>, account: int, status: int)
    requires account in accounts && s.switchCount <= s.maxSwitches
    ensures var (s', action) := HandleError(s, account, status);
            && (action != Exhausted ==> 0 <= Budget(s', accounts) < Budget(s, accounts))
            && (action != Exhausted ==> s'.switchCount <= s'.maxSwitches)
            && s'.maxSwitches == s.maxSwitches && s'.maxSameRetries == s.maxSameRetries
  {
    var (s', action) := HandleError(s, account, status);
    var before, after := RetriesLeft(s, accounts), RetriesLeft(s', accounts);
    if Condemns(status) {
      assert after == before;
    } else if action == Continue {
      var n := Retries(s, account) + 1;
      assert (account, n) in before;
      assert after == before - {(account, n)};
    } else {
      assert after == before;
    }
  }
}
