/**
 The attempt loop shared by the two queues: the task queue rebuilds a trial per attempt, the
 scenario queue runs a phase per attempt. Each attempt ends clean or with a named exception;
 the policy says which exceptions are worth another attempt.
 */
module Retry {

  datatype Outcome = Clean | Failed(exception: string)

  /** `Everything` is the absent allowlist; `excluded` is consulted first and always wins. */
  datatype Filter = Everything | Only(names: set<string>)
  datatype Policy = Policy(maxRetries: nat, included: Filter, excluded: set<string>,
                           minWait: real, multiplier: real, maxWait: real)

  /** The bounds the policy's fields are declared with. */
  predicate ValidPolicy(p: Policy) {
    p.multiplier > 0.0 && p.minWait >= 0.0 && p.maxWait >= 0.0
  }

  predicate ShouldRetry(p: Policy, exception: string) {
    exception !in p.excluded && (p.included.Only? ==> exception in p.included.names)
  }

  function Power(base: real, n: nat): (r: real)
    requires base > 0.0
    ensures r > 0.0
  {
    if n == 0 then 1.0 else base * Power(base, n - 1)
  }

  function Backoff(p: Policy, attempt: nat): real
    requires ValidPolicy(p)
  {
    var delay := p.minWait * Power(p.multiplier, attempt);
    if delay < p.maxWait then delay else p.maxWait
  }

  /** Attempt `k` ended the loop: clean, not worth retrying, or the last one allowed. */
  predicate Final(p: Policy, k: nat, outcome: Outcome) {
    outcome.Clean? || !ShouldRetry(p, outcome.exception) || k == p.maxRetries
  }

  /** One entry of the loop's visible behaviour, in order. */
  datatype Action =
    | Attempt(k: nat)
    | RemoveOutput(k: nat)
    | Sleep(seconds: real)

  function SleepTotal(log: seq<Action>): real {
    if log == [] then 0.0
    else SleepTotal(log[..|log| - 1]) + (if log[|log| - 1].Sleep? then log[|log| - 1].seconds else 0.0)
  }

  /** The actions of a loop that is about to start attempt `k`. */
  function Prelude(p: Policy, k: nat): seq<Action>
    requires ValidPolicy(p)
  {
    if k == 0 then []
    else Prelude(p, k - 1) + [Attempt(k - 1), RemoveOutput(k - 1), Sleep(Backoff(p, k - 1))]
  }

  lemma {:induction false} BackoffIsBounded(p: Policy, k: nat)
    requires ValidPolicy(p)
    ensures 0.0 <= Backoff(p, k) <= p.maxWait
    ensures Backoff(p, k) <= p.minWait * Power(p.multiplier, k)
  {
    var power := Power(p.multiplier, k);
    assert p.minWait * power >= 0.0;
  }

  /**
   The delay after attempt `k`, told by the delays before it: the first is the minimum wait, each
   next one the multiplier times the one before, and what exceeds the maximum wait is cut to it.
   */
  lemma {:induction false} BackoffFollowsTheDelays(p: Policy, delays: seq<real>, k: nat)
    requires ValidPolicy(p) && k < |delays| && delays[0] == p.minWait
    requires forall i :: 0 <= i < |delays| - 1 ==> delays[i + 1] == delays[i] * p.multiplier
    ensures Backoff(p, k) == if delays[k] < p.maxWait then delays[k] else p.maxWait
    ensures delays[k] == p.minWait * Power(p.multiplier, k)
  {
    if k > 0 {
      BackoffFollowsTheDelays(p, delays, k - 1);
      var power := Power(p.multiplier, k - 1);
      assert delays[k] == p.minWait * power * p.multiplier;
      assert p.minWait * power * p.multiplier == p.minWait * (p.multiplier * power);
    }
  }

  /** `k` times the longest wait. */
  function Allowance(k: nat, wait: real): real {
    if k == 0 then 0.0 else Allowance(k - 1, wait) + wait
  }

  lemma {:induction false} AllowanceIsProduct(k: nat, wait: real)
    ensures Allowance(k, wait) == (k as real) * wait
  {
    if k > 0 {
      AllowanceIsProduct(k - 1, wait);
      assert k as real == (k - 1) as real + 1.0;
      assert ((k - 1) as real + 1.0) * wait == ((k - 1) as real) * wait + wait;
    }
  }

  lemma {:induction false} AllowanceGrows(m: nat, n: nat, wait: real)
    requires m <= n && 0.0 <= wait
    ensures Allowance(m, wait) <= Allowance(n, wait)
  {
    if m < n {
      AllowanceGrows(m, n - 1, wait);
    }
  }

  /** However many attempts were made, the loop slept at most `maxWait` for each earlier one. */
  lemma {:induction false} TotalBackoffIsBounded(p: Policy, k: nat)
    requires ValidPolicy(p)
    ensures 0.0 <= SleepTotal(Prelude(p, k)) <= Allowance(k, p.maxWait)
  {
    if k > 0 {
      TotalBackoffIsBounded(p, k - 1);
      BackoffIsBounded(p, k - 1);
      var before := Prelude(p, k - 1);
      var a, r, z := Attempt(k - 1), RemoveOutput(k - 1), Sleep(Backoff(p, k - 1));
      assert Prelude(p, k) == ((before + [a]) + [r]) + [z];
      assert (before + [a])[..|before|] == before;
      assert ((before + [a]) + [r])[..|before| + 1] == before + [a];
      assert Prelude(p, k)[..|before| + 2] == (before + [a]) + [r];
      assert SleepTotal(before + [a]) == SleepTotal(before);
      assert SleepTotal((before + [a]) + [r]) == SleepTotal(before);
    }
  }

  lemma LoopSleepsWithinAllowance(p: Policy, last: nat)
    requires ValidPolicy(p) && last <= p.maxRetries
    ensures SleepTotal(Prelude(p, last) + [Attempt(last)]) <= Allowance(p.maxRetries, p.maxWait)
  {
    var log := Prelude(p, last) + [Attempt(last)];
    TotalBackoffIsBounded(p, last);
    assert log[..|log| - 1] == Prelude(p, last);
    AllowanceGrows(last, p.maxRetries, p.maxWait);
  }

  lemma LoopSleepsLittle(p: Policy, last: nat)
    requires ValidPolicy(p) && last <= p.maxRetries
    ensures SleepTotal(Prelude(p, last) + [Attempt(last)]) <= (p.maxRetries as real) * p.maxWait
  {
    LoopSleepsWithinAllowance(p, last);
    AllowanceIsProduct(p.maxRetries, p.maxWait);
  }

  /** Every attempt but the first comes after the removal of the directory of the one before, and its delay. */
  lemma {:induction false} AttemptsStartClean(p: Policy, k: nat)
    requires ValidPolicy(p)
    ensures |Prelude(p, k)| == 3 * k
    ensures forall j :: 0 <= j < k ==>
      Prelude(p, k)[3 * j] == Attempt(j) && Prelude(p, k)[3 * j + 1] == RemoveOutput(j)
      && Prelude(p, k)[3 * j + 2] == Sleep(Backoff(p, j))
  {
    if k > 0 {
      AttemptsStartClean(p, k - 1);
    }
  }

  /** The attempt failed, with an exception that is not excluded and, if only some are allowed, is one of them. */
  predicate Repeats(p: Policy, outcome: Outcome) {
    && outcome.Failed?
    && outcome.exception !in p.excluded
    && (p.included == Everything || (p.included.Only? && outcome.exception in p.included.names))
  }

  /**
   The loop, on any infinite supply of attempt outcomes. It returns the outcome of attempt `last`:
   the first that came out clean or with a failure not to be repeated, or the last one allowed. No
   later attempt is made.
   */
  method ExecuteWithRetries(p: Policy, outcomes: nat -> Outcome)
    returns (result: Outcome, last: nat, log: seq<Action>)
    requires ValidPolicy(p)
    ensures last <= p.maxRetries
    ensures result == outcomes(last) && (!Repeats(p, result) || last == p.maxRetries)
    ensures forall j :: 0 <= j < last ==> Repeats(p, outcomes(j))
    ensures log == Prelude(p, last) + [Attempt(last)]
    ensures SleepTotal(log) <= (p.maxRetries as real) * p.maxWait
  {
    log := [];
    last := 0;
    while true
      invariant last <= p.maxRetries
      invariant forall j :: 0 <= j < last ==> Repeats(p, outcomes(j))
      invariant log == Prelude(p, last)
      decreases p.maxRetries - last
    {
      result := outcomes(last);
      log := log + [Attempt(last)];
      if result.Clean? || !ShouldRetry(p, result.exception) || last == p.maxRetries {
        LoopSleepsLittle(p, last);
        return;
      }
      log := log + [RemoveOutput(last)];
      log := log + [Sleep(Backoff(p, last))];
      last := last + 1;
    }
  }
}
