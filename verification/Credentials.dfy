/**
 The credential refresher: passes that re-mint one credential file per account tag, and the sleep
 between them. Times are in seconds; a pass is measured from its scheduled wake-up.
 */
module Credentials {

  const SKEW: real := 900.0
  const MIN_SLEEP: real := 30.0
  const RETRY: real := 60.0

  /** One file written: when, and when its credentials expire. */
  datatype Mint = Mint(time: real, expiry: real)

  /** The tags' files a pass rewrote, in tag order, and when it ended; it failed if some are missing. */
  datatype Pass = Pass(mints: seq<Mint>, end: real)

  /** The scheduled wake-up of the next pass, every file's expiry, and the failures in a row so far. */
  datatype State = State(wake: real, expiries: seq<real>, failures: nat)

  predicate Completes(st: State, p: Pass) {
    st.expiries != [] && |p.mints| == |st.expiries|
  }

  function Written(expiries: seq<real>, mints: seq<Mint>): (r: seq<real>)
    requires |mints| <= |expiries|
    ensures |r| == |expiries|
  {
    seq(|expiries|, j requires 0 <= j < |expiries| => if j < |mints| then mints[j].expiry else expiries[j])
  }

  function Soonest(expiries: seq<real>): (r: real)
    requires expiries != []
    ensures r in expiries && forall j :: 0 <= j < |expiries| ==> r <= expiries[j]
  {
    if |expiries| == 1 then expiries[0]
    else
      var rest := Soonest(expiries[..|expiries| - 1]);
      if expiries[|expiries| - 1] < rest then expiries[|expiries| - 1] else rest
  }

  function SleepFor(st: State, p: Pass): real
    requires |p.mints| <= |st.expiries|
  {
    if !Completes(st, p) then RETRY
    else
      var slack := Soonest(Written(st.expiries, p.mints)) - p.end - SKEW;
      if slack < MIN_SLEEP then MIN_SLEEP else slack
  }

  function Next(st: State, p: Pass): State
    requires |p.mints| <= |st.expiries|
  {
    State(p.end + SleepFor(st, p), Written(st.expiries, p.mints), if Completes(st, p) then 0 else st.failures + 1)
  }

  /**
   When the refresher wakes next: a minute after a failed pass; after one that rewrote every file, when
   the first of them has the skew left to live, and no sooner than the minimum sleep.
   */
  lemma WakesAtTheSkew(st: State, p: Pass)
    requires |p.mints| <= |st.expiries|
    ensures var next := Next(st, p);
      && (st.expiries == [] || |p.mints| < |st.expiries| ==> next.wake == p.end + 60.0 && next.failures == st.failures + 1)
      && (st.expiries != [] && |p.mints| == |st.expiries| ==>
            && next.failures == 0 && p.end + 30.0 <= next.wake
            && (p.end + 30.0 < next.wake ==>
                  && (forall j :: 0 <= j < |p.mints| ==> next.wake <= p.mints[j].expiry - 900.0)
                  && exists j :: 0 <= j < |p.mints| && next.wake == p.mints[j].expiry - 900.0)
            && (next.wake == p.end + 30.0 ==> exists j :: 0 <= j < |p.mints| && p.mints[j].expiry - 900.0 <= next.wake))
  {
    if Completes(st, p) {
      var written := Written(st.expiries, p.mints);
      var j :| 0 <= j < |written| && written[j] == Soonest(written);
      assert forall i :: 0 <= i < |p.mints| ==> p.mints[i].expiry == written[i];
    }
  }

  // ---- the hypotheses ----------------------------------------------------------------------------

  /** A pass takes at most `d`, and what it mints lasts at least the skew, the minimum sleep and one pass. */
  predicate Possible(st: State, p: Pass, d: real) {
    && |p.mints| <= |st.expiries|
    && st.wake <= p.end <= st.wake + d
    && (forall j :: 0 <= j < |p.mints| ==> st.wake <= p.mints[j].time <= p.end)
    && (forall j :: 0 <= j < |p.mints| ==> p.mints[j].time + SKEW + MIN_SLEEP + d <= p.mints[j].expiry)
  }

  /** A run in which at most `k` passes fail in a row. */
  predicate Run(st: State, passes: seq<Pass>, d: real, k: nat)
    decreases |passes|
  {
    st.failures <= k
    && (passes != [] ==> Possible(st, passes[0], d) && Run(Next(st, passes[0]), passes[1..], d, k))
  }

  function After(st: State, passes: seq<Pass>, d: real, k: nat): State
    requires Run(st, passes, d, k)
    decreases |passes|
  {
    if passes == [] then st else After(Next(st, passes[0]), passes[1..], d, k)
  }

  /** The time `n` failures in a row can cost. */
  function Lost(n: nat, d: real): real {
    n as real * (d + RETRY)
  }

  lemma LostGrows(n: nat, d: real)
    ensures Lost(n + 1, d) == Lost(n, d) + d + RETRY
  {
    assert (n + 1) as real == n as real + 1.0;
  }

  lemma {:induction false} LostIsMonotone(m: nat, n: nat, d: real)
    requires m <= n && 0.0 <= d
    ensures 0.0 <= Lost(m, d) <= Lost(n, d)
    decreases n
  {
    if m < n {
      LostIsMonotone(m, n - 1, d);
      LostGrows(n - 1, d);
    } else if n > 0 {
      LostIsMonotone(0, n - 1, d);
      LostGrows(n - 1, d);
    }
  }

  // ---- safety ------------------------------------------------------------------------------------

  /** Every file outlives the coming pass by the skew, less what the failures so far and a late start have cost. */
  predicate Fresh(st: State, d: real, lag: real) {
    forall j :: 0 <= j < |st.expiries| ==> st.wake + SKEW - Lost(st.failures, d) - lag <= st.expiries[j]
  }

  lemma PassKeepsFresh(st: State, p: Pass, d: real, lag: real)
    requires 0.0 <= d && 0.0 <= lag && Fresh(st, d, lag) && Possible(st, p, d)
    ensures Fresh(Next(st, p), d, lag)
  {
    var next := Next(st, p);
    LostIsMonotone(0, st.failures, d);
    LostGrows(st.failures, d);
    assert Lost(0, d) == 0.0;
    forall j | 0 <= j < |next.expiries|
      ensures next.wake + SKEW - Lost(next.failures, d) - lag <= next.expiries[j]
    {
      if Completes(st, p) {
        var soonest := Soonest(next.expiries);
        var m :| 0 <= m < |next.expiries| && next.expiries[m] == soonest;
        assert p.mints[m].time + SKEW + MIN_SLEEP + d <= soonest;
      } else if j < |p.mints| {
        assert p.mints[j].time + SKEW + MIN_SLEEP + d <= next.expiries[j];
      }
    }
  }

  lemma {:induction false} RunKeepsFresh(st: State, passes: seq<Pass>, d: real, k: nat, lag: real)
    requires 0.0 <= d && 0.0 <= lag && Fresh(st, d, lag) && Run(st, passes, d, k)
    ensures Fresh(After(st, passes, d, k), d, lag) && After(st, passes, d, k).failures <= k
    ensures |After(st, passes, d, k).expiries| == |st.expiries|
    decreases |passes|
  {
    if passes != [] {
      PassKeepsFresh(st, passes[0], d, lag);
      RunKeepsFresh(Next(st, passes[0]), passes[1..], d, k, lag);
    }
  }

  /** The expiry a reader of tag `j`'s file sees at instant `t`, from one wake-up to the next. */
  function Expiry(st: State, p: Pass, j: nat, t: real): real
    requires |p.mints| <= |st.expiries| && j < |st.expiries|
  {
    if j < |p.mints| && p.mints[j].time <= t then p.mints[j].expiry else st.expiries[j]
  }

  /** What the budget leaves over: the skew, less `k` failures, one pass and the late start. */
  function Slack(d: real, k: nat, lag: real): real {
    SKEW - Lost(k, d) - d - lag
  }

  lemma FreshThroughout(st: State, p: Pass, d: real, k: nat, lag: real, j: nat, t: real)
    requires 0.0 <= d && 0.0 <= lag && Fresh(st, d, lag) && Possible(st, p, d)
    requires st.failures <= k && Next(st, p).failures <= k && 0.0 <= Slack(d, k, lag)
    requires j < |st.expiries| && st.wake <= t <= Next(st, p).wake
    ensures t + Slack(d, k, lag) <= Expiry(st, p, j, t)
  {
    var next := Next(st, p);
    PassKeepsFresh(st, p, d, lag);
    LostIsMonotone(st.failures, k, d);
    LostIsMonotone(next.failures, k, d);
    assert next.wake + SKEW - Lost(next.failures, d) - lag <= next.expiries[j];
    assert st.wake + SKEW - Lost(st.failures, d) - lag <= st.expiries[j];
    if j < |p.mints| && t < p.mints[j].time {
      assert t <= st.wake + d;
    }
  }

  // ---- from the mint loop of start on ---------------------------------------------------------------

  function Expiries(mints: seq<Mint>): seq<real> {
    seq(|mints|, j requires 0 <= j < |mints| => mints[j].expiry)
  }

  /** Starting the container at `begin` minted every tag's file before the refresher's first wake-up. */
  predicate Started(mints: seq<Mint>, begin: real, wake: real, d: real) {
    && begin <= wake
    && (forall j :: 0 <= j < |mints| ==> begin <= mints[j].time <= wake)
    && (forall j :: 0 <= j < |mints| ==> mints[j].time + SKEW + MIN_SLEEP + d <= mints[j].expiry)
  }

  /** How much later than one pass and the minimum sleep the refresher first wakes. */
  function Lag(begin: real, wake: real, d: real): real {
    if wake - begin - d - MIN_SLEEP > 0.0 then wake - begin - d - MIN_SLEEP else 0.0
  }

  function Initial(mints: seq<Mint>, wake: real): State {
    State(wake, Expiries(mints), 0)
  }

  lemma StartedFilesAreFresh(mints: seq<Mint>, begin: real, wake: real, d: real)
    requires 0.0 <= d && Started(mints, begin, wake, d)
    ensures Fresh(Initial(mints, wake), d, Lag(begin, wake, d))
    ensures forall j :: 0 <= j < |mints| ==> wake + SKEW - Lag(begin, wake, d) <= mints[j].expiry
  {
    assert Lost(0, d) == 0.0;
    forall j | 0 <= j < |mints|
      ensures wake + SKEW - Lag(begin, wake, d) <= mints[j].expiry
    {
      assert begin + SKEW + MIN_SLEEP + d <= mints[j].expiry;
    }
  }

  /**
   No file is ever expired, from the mint loop of start on. If minted credentials last at least the
   skew, the minimum sleep and one pass, a pass takes at most `d`, at most `k` passes fail in a row,
   and k * (d + 60) + d plus the start's lag is at most 900, then no file is expired up to the
   refresher's first wake-up, and at every instant of every run after it every file outlives that
   instant by the slack that is left - also when a failing pass rewrote only some of the files.
   */
  lemma NeverExpired(mints: seq<Mint>, begin: real, wake: real, passes: seq<Pass>, p: Pass, d: real, k: nat, j: nat, t: real)
    requires 0.0 <= d && Started(mints, begin, wake, d)
    requires k as real * (d + RETRY) + d + Lag(begin, wake, d) <= SKEW
    requires Run(Initial(mints, wake), passes, d, k) && j < |mints|
    requires var last := After(Initial(mints, wake), passes, d, k);
      Possible(last, p, d) && Next(last, p).failures <= k && last.wake <= t <= Next(last, p).wake
    ensures forall i :: 0 <= i < |mints| ==> wake <= mints[i].expiry
    ensures var last := After(Initial(mints, wake), passes, d, k);
      && |last.expiries| == |mints| && 0.0 <= Slack(d, k, Lag(begin, wake, d))
      && t + Slack(d, k, Lag(begin, wake, d)) <= Expiry(last, p, j, t)
  {
    var lag := Lag(begin, wake, d);
    StartedFilesAreFresh(mints, begin, wake, d);
    LostIsMonotone(0, k, d);
    RunKeepsFresh(Initial(mints, wake), passes, d, k, lag);
    FreshThroughout(After(Initial(mints, wake), passes, d, k), p, d, k, lag, j, t);
  }

  // ---- the bound is exact --------------------------------------------------------------------------

  function Failing(st: State, d: real): Pass {
    Pass([], st.wake + d)
  }

  /** `n` passes that each take `d` and rewrite nothing. */
  function Outage(st: State, d: real, n: nat): seq<Pass>
    decreases n
  {
    if n == 0 then [] else [Failing(st, d)] + Outage(Next(st, Failing(st, d)), d, n - 1)
  }

  lemma {:induction false} OutageRuns(st: State, d: real, n: nat, k: nat)
    requires 0.0 <= d && st.failures + n <= k && st.expiries != []
    ensures Run(st, Outage(st, d, n), d, k)
    ensures After(st, Outage(st, d, n), d, k) == State(st.wake + Lost(n, d), st.expiries, st.failures + n)
    decreases n
  {
    if n == 0 {
      assert Lost(0, d) == 0.0;
      assert State(st.wake + Lost(0, d), st.expiries, st.failures) == st;
    } else {
      var next := Next(st, Failing(st, d));
      assert next.expiries == st.expiries;
      OutageRuns(next, d, n - 1, k);
      LostGrows(n - 1, d);
      assert Outage(st, d, n)[1..] == Outage(next, d, n - 1);
    }
  }

  /** `p`, coming after `passes`, leaves the one file expired at `t`, though it meets every other hypothesis. */
  ghost predicate Expires(st: State, passes: seq<Pass>, p: Pass, d: real, k: nat, t: real) {
    && Run(st, passes, d, k)
    && var last := After(st, passes, d, k);
       && Possible(last, p, d) && Next(last, p).failures <= k && |last.expiries| == 1
       && last.wake <= t <= Next(last, p).wake && Expiry(last, p, 0, t) < t
  }

  /** With passes that take no time, the file runs out while the last failing pass sleeps. */
  lemma SleepExpires(wake: real, expiry: real, k: nat) returns (passes: seq<Pass>, p: Pass, t: real)
    requires 0 < k && expiry < wake + Lost(k, 0.0)
    ensures Expires(State(wake, [expiry], 0), passes, p, 0.0, k, t)
  {
    var st := State(wake, [expiry], 0);
    passes := Outage(st, 0.0, k - 1);
    OutageRuns(st, 0.0, k - 1, k);
    LostGrows(k - 1, 0.0);
    p := Failing(After(st, passes, 0.0, k), 0.0);
    t := Next(After(st, passes, 0.0, k), p).wake;
  }

  /** Otherwise it runs out before the rescuing pass gets to write it. */
  lemma WaitExpires(wake: real, expiry: real, d: real, k: nat) returns (passes: seq<Pass>, p: Pass, t: real)
    requires 0.0 < d && expiry < wake + Lost(k, d) + d
    ensures Expires(State(wake, [expiry], 0), passes, p, d, k, t)
  {
    var st := State(wake, [expiry], 0);
    passes := Outage(st, d, k);
    OutageRuns(st, d, k, k);
    var last := After(st, passes, d, k);
    p := Pass([Mint(last.wake + d, last.wake + d + SKEW + MIN_SLEEP + d)], last.wake + d);
    t := (last.wake + d + (if expiry > last.wake then expiry else last.wake)) / 2.0;
  }

  /** An outage of `k` passes outlasts a file that was good for less than they cost. */
  lemma OutageExpires(wake: real, expiry: real, d: real, k: nat) returns (passes: seq<Pass>, p: Pass, t: real)
    requires 0.0 <= d && (d > 0.0 || k > 0) && expiry < wake + Lost(k, d) + d
    ensures Expires(State(wake, [expiry], 0), passes, p, d, k, t)
  {
    if d == 0.0 {
      passes, p, t := SleepExpires(wake, expiry, k);
    } else {
      passes, p, t := WaitExpires(wake, expiry, d, k);
    }
  }

  /** A pass that takes no time and mints the shortest allowed credentials wakes next with exactly the skew left. */
  lemma ShortestPass(st: State, d: real)
    requires 0.0 <= d && |st.expiries| == 1
    ensures var p := Pass([Mint(st.wake, st.wake + SKEW + MIN_SLEEP + d)], st.wake);
      Possible(st, p, d) && Next(st, p) == State(st.wake + MIN_SLEEP + d, [st.wake + SKEW + MIN_SLEEP + d], 0)
  {
    var p := Pass([Mint(st.wake, st.wake + SKEW + MIN_SLEEP + d)], st.wake);
    assert Written(st.expiries, p.mints) == [st.wake + SKEW + MIN_SLEEP + d];
  }

  /** An outage after one successful pass, which leaves exactly the skew. */
  lemma LaterOutageExpires(st: State, d: real, k: nat) returns (passes: seq<Pass>, p: Pass, t: real)
    requires |st.expiries| == 1 && st.failures == 0 && 0.0 <= d && (d > 0.0 || k > 0) && SKEW < Lost(k, d) + d
    ensures Expires(st, passes, p, d, k, t)
  {
    var first := Pass([Mint(st.wake, st.wake + SKEW + MIN_SLEEP + d)], st.wake);
    ShortestPass(st, d);
    var rest;
    rest, p, t := OutageExpires(st.wake + MIN_SLEEP + d, st.wake + SKEW + MIN_SLEEP + d, d, k);
    passes := [first] + rest;
    assert passes[1..] == rest;
    AfterFirst(st, first, passes, d, k);
  }

  lemma AfterFirst(st: State, first: Pass, passes: seq<Pass>, d: real, k: nat)
    requires passes != [] && passes[0] == first && st.failures <= k && Possible(st, first, d)
    requires Run(Next(st, first), passes[1..], d, k)
    ensures Run(st, passes, d, k) && After(st, passes, d, k) == After(Next(st, first), passes[1..], d, k)
  {
  }

  /**
   Beyond the budget the claim fails, for every start, pass time and number of failures: a start
   and a run that meet all the other hypotheses leave a file expired, before the refresher's first
   wake-up or after it.
   */
  lemma BoundIsExact(begin: real, wake: real, d: real, k: nat)
    returns (mints: seq<Mint>, passes: seq<Pass>, p: Pass, t: real)
    requires 0.0 <= d && begin <= wake && SKEW < k as real * (d + RETRY) + d + Lag(begin, wake, d)
    ensures Started(mints, begin, wake, d) && |mints| == 1
    ensures mints[0].expiry < t <= wake || Expires(Initial(mints, wake), passes, p, d, k, t)
  {
    var lasting := begin + SKEW + MIN_SLEEP + d;
    mints := [Mint(begin, lasting)];
    assert Initial(mints, wake) == State(wake, [lasting], 0);
    if d == 0.0 && k == 0 {
      passes, p, t := [], Pass([], wake), wake;
    } else if Lag(begin, wake, d) > 0.0 {
      passes, p, t := OutageExpires(wake, lasting, d, k);
    } else {
      passes, p, t := LaterOutageExpires(Initial(mints, wake), d, k);
    }
  }

  // ---- the refresher ---------------------------------------------------------------------------------

  class Refresher {
    var expiries: seq<real>
    var failures: nat

    /** Starting the container mints every tag's file. */
    constructor (mints: seq<Mint>)
      ensures expiries == Expiries(mints) && failures == 0
    {
      expiries := seq(|mints|, j requires 0 <= j < |mints| => mints[j].expiry);
      failures := 0;
    }

    method WriteCredsFile(tag: nat, mint: Mint) returns (expiry: real)
      requires tag < |expiries|
      modifies this`expiries
      ensures expiries == old(expiries)[tag := mint.expiry] && expiry == mint.expiry
    {
      expiries := expiries[tag := mint.expiry];
      return mint.expiry;
    }

    /** One pass: rewrite file after file up to the first failure, and settle the sleep. */
    method Refresh(p: Pass, ghost wake: real) returns (sleepFor: real)
      requires |p.mints| <= |expiries|
      modifies this
      ensures State(p.end + sleepFor, expiries, failures) == Next(old(State(wake, expiries, failures)), p)
    {
      ghost var st := State(wake, expiries, failures);
      var minted := [];
      for tag := 0 to |p.mints|
        invariant |expiries| == |old(expiries)| && failures == old(failures)
        invariant expiries == Written(st.expiries, p.mints[..tag])
        invariant |minted| == tag && forall j :: 0 <= j < tag ==> minted[j] == p.mints[j].expiry
      {
        var expiry := WriteCredsFile(tag, p.mints[tag]);
        minted := minted + [expiry];
      }
      assert p.mints[..|p.mints|] == p.mints;
      if |minted| < |expiries| || minted == [] {
        failures := failures + 1;
        return RETRY;
      }
      assert minted == expiries;
      var soonest := minted[0] - p.end;
      for i := 1 to |minted|
        invariant soonest == Soonest(minted[..i]) - p.end
      {
        assert minted[..i + 1][..i] == minted[..i];
        if minted[i] - p.end < soonest {
          soonest := minted[i] - p.end;
        }
      }
      assert minted[..|minted|] == minted;
      failures := 0;
      sleepFor := if soonest - SKEW < MIN_SLEEP then MIN_SLEEP else soonest - SKEW;
    }
  }
}
