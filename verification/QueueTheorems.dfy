/**
 What the task queue's step relation guarantees over whole runs: exclusion, no lost wake-up, no
 deadlock, termination, and a reset between a mutating trial's attempt and anything after it.
 */
module QueueTheorems {
  import opened Admission
  import opened Retry
  import opened QueueProtocol

  // ---- safety ----------------------------------------------------------------------------

  lemma SubsetSize(a: set<nat>, s: set<nat>)
    requires a <= s
    ensures |a| <= |s|
  {
    assert s == a + (s - a);
  }

  lemma TwoHolders(b: Batch, g: GateState, readers: set<nat>, writers: set<nat>, waiters: set<nat>, t: nat, u: nat)
    requires Tells(b, g, readers, writers, waiters) && t != u
    requires t in readers || t in writers
    requires u in readers || u in writers
    ensures t in readers && t !in writers && u in readers && u !in writers
  {
    if t in writers && u in writers {
      SubsetSize({t, u}, writers);
    } else if t in writers {
      SubsetSize({u}, readers);
    } else if u in writers {
      SubsetSize({t}, readers);
    }
  }

  lemma HolderIsCounted(b: Batch, q: Queue, t: nat, mode: Mode)
    requires |q.pcs| == |b.trials| && t < |b.trials| && Holding(q.pcs[t])
    ensures t in Holders(b, q, b.trials[t].scenario, mode) <==> b.trials[t].mode == mode
  {
    assert b.trials[t] == Trial(b.trials[t].scenario, mode) <==> b.trials[t].mode == mode;
  }

  /** Two trials inside one scenario's gate at once are both read-only. */
  lemma HoldersAreReaders(b: Batch, q: Queue, t: nat, u: nat)
    requires Inv(b, q)
    requires t < |b.trials| && u < |b.trials| && t != u && b.trials[t].scenario == b.trials[u].scenario
    requires Holding(q.pcs[t]) && Holding(q.pcs[u])
    ensures b.trials[t].mode.ReadOnly? && b.trials[u].mode.ReadOnly?
  {
    var scenario := b.trials[t].scenario;
    assert GateTells(b, q, scenario);
    HolderIsCounted(b, q, t, ReadOnly);
    HolderIsCounted(b, q, t, Mutating);
    HolderIsCounted(b, q, u, ReadOnly);
    HolderIsCounted(b, q, u, Mutating);
    TwoHolders(b, GateOf(q, scenario), Holders(b, q, scenario, ReadOnly), Holders(b, q, scenario, Mutating),
               Waiters(b, q, scenario), t, u);
  }

  /** In every reachable state, a mutating trial inside its scenario's gate is alone inside it. */
  lemma WritersAreAlone(b: Batch, steps: seq<Step>, t: nat, u: nat)
    requires IsRun(b, steps)
    requires t < |b.trials| && u < |b.trials| && t != u && b.trials[t].scenario == b.trials[u].scenario
    requires b.trials[t].mode.Mutating? && Holding(PcOf(b, steps, t))
    ensures !Holding(PcOf(b, steps, u))
  {
    ReachableInv(b, steps);
    if Holding(PcOf(b, steps, u)) {
      HoldersAreReaders(b, After(b, steps), t, u);
    }
  }

  /** The program point of trial `t` after the run `steps`. */
  ghost function PcOf(b: Batch, steps: seq<Step>, t: nat): Pc
    requires IsRun(b, steps) && t < |b.trials|
  {
    ReachableInv(b, steps);
    After(b, steps).pcs[t]
  }

  /** The gate's two fields count its holders, and at most `slots` trials execute. */
  lemma GateAndSlotsAreExact(b: Batch, steps: seq<Step>, scenario: string)
    requires IsRun(b, steps)
    ensures var q := After(b, steps); var g := GateOf(q, scenario);
      && g.readers == |Holders(b, q, scenario, ReadOnly)|
      && (g.writerHeld <==> |Holders(b, q, scenario, Mutating)| == 1)
      && (g.writerHeld ==> g.readers == 0)
      && |Bodies(q)| <= b.slots
  {
    ReachableInv(b, steps);
    assert GateTells(b, After(b, steps), scenario);
    if Holders(b, After(b, steps), scenario, Mutating) == {} {
      assert |Holders(b, After(b, steps), scenario, Mutating)| == 0;
    }
  }

  /** A waiter whose predicate is true has been notified: no wake-up is ever lost. */
  lemma NoLostWakeup(b: Batch, steps: seq<Step>, t: nat)
    requires IsRun(b, steps) && t < |b.trials| && PcOf(b, steps, t).WaitingGate?
    requires Admits(GateOf(After(b, steps), b.trials[t].scenario), b.trials[t].mode)
    ensures Enabled(b, After(b, steps), Wake(t))
    ensures Apply(b, After(b, steps), Wake(t)).pcs[t].WaitingSlot?
  {
    ReachableInv(b, steps);
    var q, scenario := After(b, steps), b.trials[t].scenario;
    assert GateTells(b, q, scenario);
    assert t in Waiters(b, q, scenario);
  }

  // ---- progress --------------------------------------------------------------------------

  ghost predicate Finished(q: Queue) {
    forall t :: 0 <= t < |q.pcs| ==> q.pcs[t].Done?
  }

  ghost predicate CanMove(b: Batch, q: Queue) {
    exists step :: Enabled(b, q, step) && !step.Cancel?
  }

  /** A trial inside its body always has a step of its own. */
  function BodyStep(pc: Pc, t: nat): Step
    requires InBody(pc)
  {
    match pc
    case Running(_) => Settle(t, Clean)
    case Resetting(_, _) => FinishReset(t)
    case BackingOff(_) => Retry(t)
    case Leaving => Leave(t)
  }

  /** With no holder anywhere, a gate admits everyone, so nobody can be parked on it. */
  lemma EmptyGateParksNobody(b: Batch, q: Queue, t: nat)
    requires Inv(b, q) && t < |b.trials| && q.pcs[t].WaitingGate?
    requires forall u :: 0 <= u < |q.pcs| ==> !Holding(q.pcs[u])
    ensures Enabled(b, q, Wake(t))
  {
    var scenario := b.trials[t].scenario;
    assert GateTells(b, q, scenario);
    assert Holders(b, q, scenario, ReadOnly) == {} && Holders(b, q, scenario, Mutating) == {};
    assert t in Waiters(b, q, scenario);
  }

  lemma UnfinishedCanMove(b: Batch, q: Queue)
    requires ValidBatch(b) && Inv(b, q) && !Finished(q)
    ensures CanMove(b, q)
  {
    var t :| 0 <= t < |q.pcs| && !q.pcs[t].Done?;
    if u :| 0 <= u < |q.pcs| && InBody(q.pcs[u]) {
      assert Enabled(b, q, BodyStep(q.pcs[u], u));
    } else if u :| 0 <= u < |q.pcs| && q.pcs[u].WaitingSlot? {
      assert Bodies(q) == {};
      assert Enabled(b, q, TakeSlot(u));
    } else if q.pcs[t].Ready? {
      assert Enabled(b, q, Arrive(t));
    } else {
      EmptyGateParksNobody(b, q, t);
    }
  }

  /** No reachable state is stuck: without any cancel, some trial can move until all are done. */
  lemma NoDeadlock(b: Batch, steps: seq<Step>)
    requires ValidBatch(b) && IsRun(b, steps)
    ensures CanMove(b, After(b, steps)) <==> !Finished(After(b, steps))
  {
    ReachableInv(b, steps);
    if !Finished(After(b, steps)) {
      UnfinishedCanMove(b, After(b, steps));
    }
  }

  // ---- termination -----------------------------------------------------------------------

  /** How far attempt `k` of the loop is from its end, counting three program points an attempt. */
  function AttemptsAhead(p: Policy, k: nat): nat {
    if k <= p.maxRetries then 3 * (p.maxRetries - k) else 0
  }

  /** An upper bound on what trial `t` can still do; leaving pays for the waiters it notifies. */
  function Rank(b: Batch, q: Queue, t: nat): nat
    requires t < |b.trials| && t < |q.pcs|
  {
    var n, loop := |b.trials|, 3 * b.policy.maxRetries;
    match q.pcs[t]
    case Done => 0
    case Leaving => n + 1
    case BackingOff(k) => n + 2 + AttemptsAhead(b.policy, k)
    case Resetting(k, _) => n + 3 + AttemptsAhead(b.policy, k)
    case Running(k) => n + 4 + AttemptsAhead(b.policy, k)
    case WaitingSlot => n + 5 + loop
    case WaitingGate => n + 6 + loop + (if t in GateOf(q, b.trials[t].scenario).woken then 1 else 0)
    case Ready => n + 8 + loop
  }

  function Total(b: Batch, q: Queue, n: nat): nat
    requires n <= |b.trials| && n <= |q.pcs|
  {
    if n == 0 then 0 else Total(b, q, n - 1) + Rank(b, q, n - 1)
  }

  lemma {:induction false} TotalRises(b: Batch, q: Queue, r: Queue, n: nat, rise: nat)
    requires n <= |b.trials| && n <= |q.pcs| && |r.pcs| == |q.pcs|
    requires forall u: nat :: u < n ==> Rank(b, r, u) <= Rank(b, q, u) + rise
    ensures Total(b, r, n) <= Total(b, q, n) + rise * n
  {
    if n > 0 {
      TotalRises(b, q, r, n - 1, rise);
      assert rise * n == rise * (n - 1) + rise;
    }
  }

  lemma {:induction false} TotalFalls(b: Batch, q: Queue, r: Queue, n: nat, t: nat, rise: nat)
    requires t < n <= |b.trials| && n <= |q.pcs| && |r.pcs| == |q.pcs|
    requires forall u: nat :: u < n && u != t ==> Rank(b, r, u) <= Rank(b, q, u) + rise
    ensures Total(b, r, n) + Rank(b, q, t) <= Total(b, q, n) + Rank(b, r, t) + rise * n
  {
    assert rise * n == rise * (n - 1) + rise;
    if t == n - 1 {
      TotalRises(b, q, r, n - 1, rise);
    } else {
      TotalFalls(b, q, r, n - 1, t, rise);
    }
  }

  predicate Releases(q: Queue, step: Step)
    requires step.t < |q.pcs|
  {
    step.Leave? || (step.Cancel? && q.pcs[step.t].WaitingSlot?)
  }

  lemma OthersRankMoves(b: Batch, q: Queue, step: Step, u: nat)
    requires Inv(b, q) && Enabled(b, q, step) && u < |b.trials| && u != step.t
    ensures var r := Apply(b, q, step);
      |r.pcs| == |q.pcs| && Rank(b, r, u) <= Rank(b, q, u) + (if Releases(q, step) then 1 else 0)
  {
    StepMoves(b, q, step);
    assert Apply(b, q, step).pcs[u] == q.pcs[u];
  }

  /** A trial that knocks is not left notified. */
  lemma KnockingRankFalls(b: Batch, q: Queue, step: Step)
    requires Inv(b, q) && Enabled(b, q, step) && (step.Arrive? || step.Wake?)
    ensures var r := Apply(b, q, step);
      |r.pcs| == |q.pcs| && Rank(b, r, step.t) < Rank(b, q, step.t)
  {
    var g := GateOf(q, b.trials[step.t].scenario);
    assert step.t !in TryEntered(g, step.t, b.trials[step.t].mode).woken;
  }

  lemma InsideRankFalls(b: Batch, q: Queue, step: Step)
    requires Inv(b, q) && Enabled(b, q, step) && !step.Arrive? && !step.Wake?
    ensures var r := Apply(b, q, step);
      |r.pcs| == |q.pcs| && Rank(b, r, step.t) + (if Releases(q, step) then |b.trials| else 0) < Rank(b, q, step.t)
  {
    assert AttemptInRange(b.policy, q.pcs[step.t]);
  }

  lemma OwnRankFalls(b: Batch, q: Queue, step: Step)
    requires Inv(b, q) && Enabled(b, q, step)
    ensures var r := Apply(b, q, step);
      |r.pcs| == |q.pcs| && Rank(b, r, step.t) + (if Releases(q, step) then |b.trials| else 0) < Rank(b, q, step.t)
  {
    if step.Arrive? || step.Wake? {
      KnockingRankFalls(b, q, step);
    } else {
      InsideRankFalls(b, q, step);
    }
  }

  /** A step lowers its own trial's rank; only a release raises others', each by at most one. */
  lemma RankMoves(b: Batch, q: Queue, step: Step, u: nat)
    requires Inv(b, q) && Enabled(b, q, step) && u < |b.trials|
    ensures var r := Apply(b, q, step);
      && |r.pcs| == |q.pcs|
      && (u != step.t ==> Rank(b, r, u) <= Rank(b, q, u) + (if Releases(q, step) then 1 else 0))
      && (u == step.t ==> Rank(b, r, u) + (if Releases(q, step) then |b.trials| else 0) < Rank(b, q, u))
  {
    if u == step.t {
      OwnRankFalls(b, q, step);
    } else {
      OthersRankMoves(b, q, step, u);
    }
  }

  lemma StepLowersTotal(b: Batch, q: Queue, step: Step)
    requires Inv(b, q) && Enabled(b, q, step)
    ensures |Apply(b, q, step).pcs| == |q.pcs|
    ensures Total(b, Apply(b, q, step), |b.trials|) < Total(b, q, |b.trials|)
  {
    var releases := Releases(q, step);
    forall u: nat | u < |b.trials|
      ensures var r := Apply(b, q, step);
        && |r.pcs| == |q.pcs|
        && (u != step.t ==> Rank(b, r, u) <= Rank(b, q, u) + (if releases then 1 else 0))
        && (u == step.t ==> Rank(b, r, u) + (if releases then |b.trials| else 0) < Rank(b, q, u))
    {
      RankMoves(b, q, step, u);
    }
    RankMoves(b, q, step, step.t);
    TotalFalls(b, q, Apply(b, q, step), |b.trials|, step.t, if releases then 1 else 0);
  }

  lemma {:induction false} InitialTotal(b: Batch, n: nat)
    requires n <= |b.trials|
    ensures Total(b, Initial(b), n) == n * (|b.trials| + 8 + 3 * b.policy.maxRetries)
  {
    var each := |b.trials| + 8 + 3 * b.policy.maxRetries;
    if n > 0 {
      InitialTotal(b, n - 1);
      assert Rank(b, Initial(b), n - 1) == each;
      assert n * each == (n - 1) * each + each;
    }
  }

  lemma {:induction false} StepsSpendTotal(b: Batch, steps: seq<Step>)
    requires IsRun(b, steps)
    ensures Inv(b, After(b, steps))
    ensures |steps| + Total(b, After(b, steps), |b.trials|) <= Total(b, Initial(b), |b.trials|)
    decreases |steps|
  {
    ReachableInv(b, steps);
    if steps != [] {
      var before := steps[..|steps| - 1];
      StepsSpendTotal(b, before);
      StepLowersTotal(b, After(b, before), steps[|steps| - 1]);
    }
  }

  /**
   Every run of a batch, cancels included, is finite: no longer than a bound fixed by the batch.
   A run that cannot be extended without a cancel has finished every trial.
   */
  lemma EveryBatchFinishes(b: Batch, steps: seq<Step>)
    requires ValidBatch(b) && IsRun(b, steps)
    ensures |steps| <= |b.trials| * (|b.trials| + 8 + 3 * b.policy.maxRetries)
    ensures !CanMove(b, After(b, steps)) ==> Finished(After(b, steps))
  {
    StepsSpendTotal(b, steps);
    InitialTotal(b, |b.trials|);
    NoDeadlock(b, steps);
  }

  // ---- the reset follows the attempt -----------------------------------------------------

  /** What may come right after event `e` of a mutating trial in its scenario's log. */
  predicate MayFollow(e: Event, next: Event) {
    match e
    case Settled(t, k, _) => next == ResetBegan(t, k)
    case ResetBegan(t, k) => next == ResetEnded(t, k) || next == Interrupted(t)
    case _ => true
  }

  ghost predicate Mutates(b: Batch, t: nat) {
    t < |b.trials| && b.trials[t].mode.Mutating?
  }

  ghost predicate LogOrdered(b: Batch, log: seq<Event>) {
    forall i :: 0 < i < |log| && Mutates(b, log[i - 1].trial) ==> MayFollow(log[i - 1], log[i])
  }

  /** Where the log's last event leaves its trial; a mutating attempt never ends a log settled. */
  ghost predicate LastTells(b: Batch, q: Queue, log: seq<Event>) {
    log != [] ==>
      var last := log[|log| - 1];
      Mutates(b, last.trial) ==>
        && !last.Settled?
        && (last.ResetBegan? ==> last.trial < |q.pcs| && q.pcs[last.trial].Resetting?
                                 && q.pcs[last.trial].attempt == last.attempt)
  }

  ghost predicate ResetInv(b: Batch, q: Queue, scenario: string) {
    var log := LogOf(q, scenario);
    && LogOrdered(b, log)
    && LastTells(b, q, log)
    && forall i :: 0 <= i < |log| ==> log[i].trial < |b.trials| && b.trials[log[i].trial].scenario == scenario
  }

  /** What one step appends to its scenario's log. */
  function AddedBy(b: Batch, q: Queue, step: Step): seq<Event>
    requires |q.pcs| == |b.trials| && Enabled(b, q, step)
  {
    var t := step.t;
    match step
    case Arrive(_) => []
    case Wake(_) => []
    case TakeSlot(_) => [Began(t, 0)]
    case Settle(_, outcome) =>
      var k := q.pcs[t].attempt;
      if b.trials[t].mode.Mutating? then [Settled(t, k, outcome), ResetBegan(t, k)] else [Settled(t, k, outcome)]
    case Raise(_) => [Raised(t)]
    case FinishReset(_) => [ResetEnded(t, q.pcs[t].attempt)]
    case Retry(_) => [Began(t, q.pcs[t].attempt + 1)]
    case Leave(_) => [Left(t)]
    case Cancel(_) => if InBody(q.pcs[t]) then [Interrupted(t)] else []
  }

  lemma AddedTells(b: Batch, q: Queue, step: Step)
    requires |q.pcs| == |b.trials| && Enabled(b, q, step)
    ensures LastTells(b, Apply(b, q, step), AddedBy(b, q, step))
  {
  }

  lemma AddedIsAppended(b: Batch, q: Queue, step: Step)
    requires |q.pcs| == |b.trials| && Enabled(b, q, step)
    ensures LogOf(Apply(b, q, step), b.trials[step.t].scenario)
         == LogOf(q, b.trials[step.t].scenario) + AddedBy(b, q, step)
  {
    assert LogOf(q, b.trials[step.t].scenario) + [] == LogOf(q, b.trials[step.t].scenario);
  }

  lemma StepLogs(b: Batch, q: Queue, step: Step) returns (added: seq<Event>)
    requires |q.pcs| == |b.trials| && Enabled(b, q, step)
    ensures LogOf(Apply(b, q, step), b.trials[step.t].scenario) == LogOf(q, b.trials[step.t].scenario) + added
    ensures forall i :: 0 <= i < |added| ==> added[i].trial == step.t
    ensures added != [] ==> Holding(q.pcs[step.t])
    ensures !step.Cancel? ==> forall i :: 0 <= i < |added| ==> !added[i].Interrupted?
    ensures Mutates(b, step.t) ==> LogOrdered(b, added)
    ensures q.pcs[step.t].Resetting? ==> added != []
    ensures q.pcs[step.t].Resetting? ==>
      added[0] == ResetEnded(step.t, q.pcs[step.t].attempt) || added[0] == Interrupted(step.t)
    ensures LastTells(b, Apply(b, q, step), added)
  {
    added := AddedBy(b, q, step);
    AddedTells(b, q, step);
    AddedIsAppended(b, q, step);
  }

  lemma OrderedLogsJoin(b: Batch, log: seq<Event>, added: seq<Event>)
    requires LogOrdered(b, log) && LogOrdered(b, added)
    requires log != [] && added != [] && Mutates(b, log[|log| - 1].trial) ==> MayFollow(log[|log| - 1], added[0])
    ensures LogOrdered(b, log + added)
  {
  }

  /** A log without new events still tells where its last trial is. */
  lemma QuietStepKeepsLast(b: Batch, q: Queue, r: Queue, t: nat, log: seq<Event>)
    requires LastTells(b, q, log) && Moves(b, q, r, t)
    requires log != [] && log[|log| - 1].trial == t ==> !q.pcs[t].Resetting?
    ensures LastTells(b, r, log)
  {
  }

  /** The trial being reset holds the gate as a writer, so the next event can only be its own. */
  lemma ResetBlocksOthers(b: Batch, q: Queue, t: nat, log: seq<Event>, added: seq<Event>)
    requires Inv(b, q) && t < |b.trials| && LastTells(b, q, log) && log != [] && added != []
    requires Mutates(b, log[|log| - 1].trial) && b.trials[log[|log| - 1].trial].scenario == b.trials[t].scenario
    requires Holding(q.pcs[t])
    requires q.pcs[t].Resetting? ==> added[0] == ResetEnded(t, q.pcs[t].attempt) || added[0] == Interrupted(t)
    ensures MayFollow(log[|log| - 1], added[0])
  {
    var last := log[|log| - 1];
    if last.ResetBegan? && last.trial != t {
      HoldersAreReaders(b, q, last.trial, t);
    }
  }

  lemma LoudStepKeepsResetInv(b: Batch, q: Queue, step: Step, added: seq<Event>)
    requires Inv(b, q) && Enabled(b, q, step) && ResetInv(b, q, b.trials[step.t].scenario)
    requires added != [] && Holding(q.pcs[step.t])
    requires LogOf(Apply(b, q, step), b.trials[step.t].scenario) == LogOf(q, b.trials[step.t].scenario) + added
    requires forall i :: 0 <= i < |added| ==> added[i].trial == step.t
    requires Mutates(b, step.t) ==> LogOrdered(b, added)
    requires q.pcs[step.t].Resetting? ==>
      added[0] == ResetEnded(step.t, q.pcs[step.t].attempt) || added[0] == Interrupted(step.t)
    requires LastTells(b, Apply(b, q, step), added)
    ensures ResetInv(b, Apply(b, q, step), b.trials[step.t].scenario)
  {
    var log := LogOf(q, b.trials[step.t].scenario);
    if log != [] && Mutates(b, log[|log| - 1].trial) {
      ResetBlocksOthers(b, q, step.t, log, added);
    }
    OrderedLogsJoin(b, log, added);
    assert (log + added)[|log + added| - 1] == added[|added| - 1];
  }

  lemma StepKeepsResetInv(b: Batch, q: Queue, step: Step, scenario: string)
    requires Inv(b, q) && Enabled(b, q, step) && ResetInv(b, q, scenario)
    ensures ResetInv(b, Apply(b, q, step), scenario)
  {
    StepMoves(b, q, step);
    if scenario == b.trials[step.t].scenario {
      var added := StepLogs(b, q, step);
      if added == [] {
        assert LogOf(q, scenario) + [] == LogOf(q, scenario);
        QuietStepKeepsLast(b, q, Apply(b, q, step), step.t, LogOf(q, scenario));
      } else {
        LoudStepKeepsResetInv(b, q, step, added);
      }
    } else {
      QuietStepKeepsLast(b, q, Apply(b, q, step), step.t, LogOf(q, scenario));
    }
  }

  lemma {:induction false} ReachableResetInv(b: Batch, steps: seq<Step>, scenario: string)
    requires IsRun(b, steps)
    ensures ResetInv(b, After(b, steps), scenario)
    decreases |steps|
  {
    if steps != [] {
      var before := steps[..|steps| - 1];
      ReachableInv(b, before);
      ReachableResetInv(b, before, scenario);
      StepKeepsResetInv(b, After(b, before), steps[|steps| - 1], scenario);
    }
  }

  ghost predicate CancelFree(steps: seq<Step>) {
    forall i :: 0 <= i < |steps| ==> !steps[i].Cancel?
  }

  /** Only a cancel interrupts a body. */
  lemma {:induction false} CancelFreeIsUninterrupted(b: Batch, steps: seq<Step>, scenario: string)
    requires IsRun(b, steps) && CancelFree(steps)
    ensures forall i :: 0 <= i < |LogOf(After(b, steps), scenario)| ==> !LogOf(After(b, steps), scenario)[i].Interrupted?
    decreases |steps|
  {
    if steps != [] {
      var before, last := steps[..|steps| - 1], steps[|steps| - 1];
      CancelFreeIsUninterrupted(b, before, scenario);
      ReachableInv(b, before);
      StepMoves(b, After(b, before), last);
      var added := StepLogs(b, After(b, before), last);
    }
  }

  /**
   In every run, the event after a mutating trial's settled attempt is the start of its reset.
   Whatever happens next on that scenario - the trial's next attempt, its leaving, or another
   trial - comes after that reset ended or, if the run has cancels, after it was interrupted.
   */
  lemma ResetComesFirst(b: Batch, steps: seq<Step>, scenario: string, i: nat)
    requires IsRun(b, steps) && i < |LogOf(After(b, steps), scenario)|
    requires LogOf(After(b, steps), scenario)[i].Settled?
    requires Mutates(b, LogOf(After(b, steps), scenario)[i].trial)
    ensures var log := LogOf(After(b, steps), scenario); var Settled(t, k, _) := log[i];
      && i + 1 < |log| && log[i + 1] == ResetBegan(t, k)
      && (i + 2 < |log| ==> log[i + 2] == ResetEnded(t, k) || log[i + 2] == Interrupted(t))
      && (i + 2 < |log| && CancelFree(steps) ==> log[i + 2] == ResetEnded(t, k))
  {
    ReachableResetInv(b, steps, scenario);
    var log := LogOf(After(b, steps), scenario);
    assert LogOrdered(b, log) && LastTells(b, After(b, steps), log);
    assert MayFollow(log[i], log[i + 1]);
    if i + 2 < |log| {
      assert MayFollow(log[i + 1], log[i + 2]);
      if CancelFree(steps) {
        CancelFreeIsUninterrupted(b, steps, scenario);
      }
    }
  }
}
