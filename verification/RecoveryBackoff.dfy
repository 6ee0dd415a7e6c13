// Retry scheduling of core recovery (recoveryExhausted, scheduleRecoverRetry and getRecoverDelay of
// pkg/manager/manager.go). Times are in nanoseconds; the jitter ratio of one fifth is exact on the
// delays that occur, which are all multiples of five.

module RecoveryBackoff {
  import opened Wrappers

  const BASE: nat := 500_000_000
  const CAP: nat := 15_000_000_000
  const FLOOR: nat := 100_000_000

  function Pow2(n: nat): nat {
    if n == 0 then 1 else 2 * Pow2(n - 1)
  }

  function Min(a: int, b: int): int {
    if a <= b then a else b
  }

  // The delay before retry number n, without jitter.
  function Backoff(n: nat): nat
    requires n > 0
  {
    Min(BASE * Pow2(n - 1), CAP)
  }

  lemma {:induction false} BackoffGrows(m: nat, n: nat)
    requires 0 < m <= n
    ensures BASE <= Backoff(m) <= Backoff(n) <= CAP
    ensures Backoff(n) == CAP <==> n >= 6
  {
    if n == 1 {
      assert Pow2(0) == 1;
    } else if m == n {
      BackoffGrows(m - 1, n - 1);
      SmallPowers(n - 1);
    } else {
      BackoffGrows(m, n - 1);
      SmallPowers(n - 1);
    }
  }

  lemma {:induction false} SmallPowers(n: nat)
    ensures Pow2(n) >= 1
    ensures Pow2(n) >= 30 <==> n >= 5
    ensures n > 0 ==> Pow2(n) == 2 * Pow2(n - 1)
  {
    if n > 5 {
      SmallPowers(n - 1);
    } else {
      assert Pow2(1) == 2 && Pow2(2) == 4;
      assert Pow2(3) == 8 && Pow2(4) == 16;
      assert Pow2(5) == 32;
    }
  }

  datatype Policy = Policy(maxAttempts: int, maxElapsed: int)

  // recoverCount and recoverFirstFailAt.
  datatype State = State(count: int, firstFailAt: Option<nat>)

  const FRESH := State(0, None)

  predicate Exhausted(p: Policy, s: State, now: nat) {
    || (p.maxAttempts > 0 && s.count > p.maxAttempts)
    || (p.maxElapsed > 0 && s.firstFailAt.Some? && now - s.firstFailAt.value >= p.maxElapsed)
  }

  // The state in which a failure at `now` is judged.
  function Counted(s: State, now: nat): State {
    State(s.count + 1, if s.firstFailAt.None? then Some(now) else s.firstFailAt)
  }

  function AfterFailure(p: Policy, s: State, now: nat): State {
    if Exhausted(p, Counted(s, now), now) then FRESH else Counted(s, now)
  }

  class Recovery {
    const policy: Policy
    var recoverCount: int
    var firstFailAt: Option<nat>

    function View(): State
      reads this
    {
      State(recoverCount, firstFailAt)
    }

    constructor (policy: Policy)
      ensures this.policy == policy && View() == FRESH
    {
      this.policy := policy;
      recoverCount, firstFailAt := 0, None;
    }

    method RecoveryExhausted(now: nat) returns (exhausted: bool)
      ensures exhausted == Exhausted(policy, View(), now)
    {
      if policy.maxAttempts > 0 && recoverCount > policy.maxAttempts {
        return true;
      }
      if policy.maxElapsed > 0 && firstFailAt.Some? && now - firstFailAt.value >= policy.maxElapsed {
        return true;
      }
      return false;
    }

    // One failure: either a retry after the returned delay, or the terminal event (None).
    method ScheduleRetry(now: nat, draw: nat -> nat) returns (delay: Option<nat>)
      requires forall bound: nat :: draw(bound) <= bound
      modifies this
      ensures View() == AfterFailure(policy, old(View()), now)
      ensures delay.None? <==> Exhausted(policy, Counted(old(View()), now), now)
      ensures delay.Some? && old(recoverCount) >= 0 ==>
                var b := Backoff(recoverCount); b * 4 / 5 <= delay.value <= b * 6 / 5 && delay.value > FLOOR
    {
      recoverCount := recoverCount + 1;
      if firstFailAt.None? {
        firstFailAt := Some(now);
      }
      var exhausted := RecoveryExhausted(now);
      if exhausted {
        recoverCount := 0;
        firstFailAt := None;
        return None;
      }
      var d := RecoverDelay(recoverCount, draw);
      delay := Some(d);
    }

    // A recovery that converged.
    method Succeeded()
      modifies this
      ensures View() == FRESH
    {
      recoverCount, firstFailAt := 0, None;
    }
  }

  // getRecoverDelay; `draw` picks a number up to its bound. The floor never applies.
  method RecoverDelay(count: int, draw: nat -> nat) returns (delay: nat)
    requires forall bound: nat :: draw(bound) <= bound
    ensures var b := Backoff(if count <= 0 then 1 else count);
            b * 4 / 5 <= delay <= b * 6 / 5 && delay > FLOOR
            && delay == b + draw(b / 5 * 2) - b / 5
  {
    hide Pow2;
    var attempt := count;
    if attempt <= 0 {
      attempt := 1;
    }
    delay := BASE;
    var i := 1;
    First();
    while i < attempt
      invariant 1 <= i <= attempt
      invariant delay == Backoff(i)
    {
      BackoffGrows(i, attempt);
      BackoffGrows(i + 1, attempt);
      SmallPowers(i);
      if delay >= CAP {
        delay := CAP;
        i := attempt;
        break;
      }
      delay := delay * 2;
      if delay > CAP {
        delay := CAP;
        i := attempt;
        break;
      }
      i := i + 1;
    }
    BackoffGrows(attempt, attempt);
    var jitterRange := delay / 5;
    if jitterRange > 0 {
      var jitter := draw(jitterRange * 2) - jitterRange;
      delay := delay + jitter;
    }
    if delay < FLOOR {
      delay := FLOOR;
    }
  }

  lemma First()
    ensures Backoff(1) == BASE
  {
    assert Pow2(0) == 1;
  }

  // ------------------------------------------------------------------ runs of failures

  // The state after n failures in a row, at the given times.
  function AfterFailures(p: Policy, times: nat -> nat, n: nat): State {
    if n == 0 then FRESH else AfterFailure(p, AfterFailures(p, times, n - 1), times(n))
  }

  // Whether failure number n is the terminal one.
  predicate GivesUp(p: Policy, times: nat -> nat, n: nat)
    requires n > 0
  {
    Exhausted(p, Counted(AfterFailures(p, times, n - 1), times(n)), times(n))
  }

  // m rounds of k retries and one terminal event.
  function Rounds(m: nat, k: nat): nat {
    if m == 0 then 0 else Rounds(m - 1, k) + k + 1
  }

  // With an attempt limit of k and no time limit every round is k retries and then the terminal
  // event, for ever.
  lemma {:induction false} ExactlyLimitRetries(k: nat, times: nat -> nat, m: nat, j: nat)
    requires k > 0 && j <= k
    ensures AfterFailures(Policy(k, 0), times, Rounds(m, k) + j).count == j
    ensures GivesUp(Policy(k, 0), times, Rounds(m, k) + j + 1) <==> j == k
    decreases m, j
  {
    var p := Policy(k, 0);
    if j > 0 {
      ExactlyLimitRetries(k, times, m, j - 1);
    } else if m > 0 {
      ExactlyLimitRetries(k, times, m - 1, k);
      assert Rounds(m, k) == Rounds(m - 1, k) + k + 1;
    }
  }

  // Without either limit recovery never gives up.
  lemma {:induction false} NoLimitNeverGivesUp(p: Policy, times: nat -> nat, n: nat)
    requires p.maxAttempts <= 0 && p.maxElapsed <= 0
    ensures AfterFailures(p, times, n).count == n && (n > 0 ==> !GivesUp(p, times, n))
  {
    if n > 0 {
      NoLimitNeverGivesUp(p, times, n - 1);
    }
  }

  // Where the current run of retries began: after the last terminal event.
  function RunStart(p: Policy, times: nat -> nat, n: nat): (s: nat)
    ensures s <= n
  {
    if n == 0 then 0 else if GivesUp(p, times, n) then n else RunStart(p, times, n - 1)
  }

  // With any limits, failure n gives up exactly when it is more than k failures into its run or the
  // time limit has passed since the first failure of the run.
  lemma {:induction false} GivesUpExactlyWhen(p: Policy, times: nat -> nat, n: nat)
    requires n > 0
    ensures var s := RunStart(p, times, n - 1);
            GivesUp(p, times, n) <==>
              || (p.maxAttempts > 0 && n - s > p.maxAttempts)
              || (p.maxElapsed > 0 && times(n) - times(s + 1) >= p.maxElapsed)
  {
    StateOfRun(p, times, n - 1);
  }

  lemma {:induction false} StateOfRun(p: Policy, times: nat -> nat, n: nat)
    ensures var s := RunStart(p, times, n);
            AfterFailures(p, times, n) == State(n - s, if n == s then None else Some(times(s + 1)))
  {
    if n > 0 {
      StateOfRun(p, times, n - 1);
    }
  }
}
