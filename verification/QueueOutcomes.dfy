/**
 What a trial's own events say over whole runs of the queue: it attempts again only after a failure
 the retry policy lets it repeat, leaves only when nothing is left to repeat, and waits for exactly
 the trials its scenario's gate keeps it from.
 */
module QueueOutcomes {
  import opened Admission
  import opened Retry
  import opened QueueProtocol
  import QueueTheorems

  // ---- one trial's story -------------------------------------------------------------------------

  /** The events of trial `t`, in order. */
  function Own(log: seq<Event>, t: nat): seq<Event> {
    if log == [] then [] else
      Own(log[..|log| - 1], t) + (if log[|log| - 1].trial == t then [log[|log| - 1]] else [])
  }

  /** Everything trial `t` did so far. */
  function Story(b: Batch, q: Queue, t: nat): seq<Event>
    requires t < |b.trials|
  {
    Own(LogOf(q, b.trials[t].scenario), t)
  }

  /** The first `n` events end with attempt `k` over: settled with `outcome`, and its reset, if it needs one, done. */
  predicate Over(story: seq<Event>, n: nat, t: nat, mode: Mode, k: nat, outcome: Outcome)
    requires n <= |story|
  {
    if mode.Mutating? then
      n >= 3 && story[n - 3] == Settled(t, k, outcome) && story[n - 2] == ResetBegan(t, k) && story[n - 1] == ResetEnded(t, k)
    else n >= 1 && story[n - 1] == Settled(t, k, outcome)
  }

  /** Attempt `k + 1` may begin next. */
  ghost predicate EarnsRetry(b: Batch, story: seq<Event>, n: nat, t: nat, k: nat)
    requires n <= |story| && t < |b.trials|
  {
    k < b.policy.maxRetries && exists x :: Repeats(b.policy, Failed(x)) && Over(story, n, t, b.trials[t].mode, k, Failed(x))
  }

  /** Nothing is left to repeat after attempt `k`. */
  predicate LastWord(p: Policy, k: nat, outcome: Outcome) {
    k == p.maxRetries || !Repeats(p, outcome)
  }

  /** The trial may leave next. */
  ghost predicate EarnsLeave(b: Batch, story: seq<Event>, n: nat, t: nat)
    requires n <= |story| && t < |b.trials|
  {
    || (n >= 1 && (story[n - 1] == Raised(t) || story[n - 1] == Interrupted(t)))
    || exists k, outcome :: LastWord(b.policy, k, outcome) && Over(story, n, t, b.trials[t].mode, k, outcome)
  }

  /** Event `n` of a story is in its place. */
  ghost predicate InPlace(b: Batch, story: seq<Event>, n: nat, t: nat)
    requires n < |story| && t < |b.trials|
  {
    match story[n]
    case Began(u, k) => u == t && if k == 0 then n == 0 else EarnsRetry(b, story, n, t, k - 1)
    case Settled(u, k, _) => u == t && n >= 1 && story[n - 1] == Began(t, k)
    case ResetBegan(u, k) => u == t && b.trials[t].mode.Mutating? && n >= 1 && exists o :: story[n - 1] == Settled(t, k, o)
    case ResetEnded(u, k) => u == t && n >= 1 && story[n - 1] == ResetBegan(t, k)
    case Raised(u) => u == t && n >= 1 && story[n - 1].Began?
    case Interrupted(u) =>
      u == t && n >= 1 && (story[n - 1].Began? || story[n - 1].ResetBegan? || exists k :: EarnsRetry(b, story, n, t, k))
    case Left(u) => u == t && EarnsLeave(b, story, n, t)
  }

  ghost predicate Ordered(b: Batch, story: seq<Event>, t: nat)
    requires t < |b.trials|
  {
    forall n: nat :: n < |story| ==> InPlace(b, story, n, t)
  }

  /** What a trial's program point says about its story so far. */
  ghost predicate PcTells(b: Batch, pc: Pc, story: seq<Event>, t: nat)
    requires t < |b.trials|
  {
    var n := |story|;
    match pc
    case Running(k) => n >= 1 && story[n - 1] == Began(t, k)
    case Resetting(k, o) =>
      b.trials[t].mode.Mutating? && n >= 2 && story[n - 2] == Settled(t, k, o) && story[n - 1] == ResetBegan(t, k)
    case BackingOff(k) => EarnsRetry(b, story, n, t, k)
    case Leaving => EarnsLeave(b, story, n, t)
    case Done => story == [] || story[n - 1] == Left(t)
    case _ => story == []
  }

  lemma {:induction false} OwnOfSum(log: seq<Event>, added: seq<Event>, t: nat)
    ensures Own(log + added, t) == Own(log, t) + Own(added, t)
  {
    if added == [] {
      assert log + added == log;
    } else {
      assert (log + added)[..|log + added| - 1] == log + added[..|added| - 1];
      OwnOfSum(log, added[..|added| - 1], t);
    }
  }

  lemma {:induction false} OwnOfOne(added: seq<Event>, t: nat, u: nat)
    requires forall i :: 0 <= i < |added| ==> added[i].trial == t
    ensures Own(added, u) == if u == t then added else []
  {
    if added != [] {
      OwnOfOne(added[..|added| - 1], t, u);
    }
  }

  /** A step adds its own events to its trial's story and nothing to any other. */
  lemma StepTells(b: Batch, q: Queue, step: Step, u: nat)
    requires |q.pcs| == |b.trials| && Enabled(b, q, step) && u < |b.trials|
    ensures Story(b, Apply(b, q, step), u)
         == Story(b, q, u) + (if u == step.t then QueueTheorems.AddedBy(b, q, step) else [])
  {
    var r, scenario := Apply(b, q, step), b.trials[u].scenario;
    var log, added := LogOf(q, scenario), QueueTheorems.AddedBy(b, q, step);
    assert Own(log, u) + [] == Own(log, u);
    if scenario == b.trials[step.t].scenario {
      QueueTheorems.AddedIsAppended(b, q, step);
      AddedIsOwn(b, q, step);
      OwnOfSum(log, added, u);
      OwnOfOne(added, step.t, u);
    } else {
      OthersLogsStay(b, q, step, scenario);
    }
  }

  lemma AddedIsOwn(b: Batch, q: Queue, step: Step)
    requires |q.pcs| == |b.trials| && Enabled(b, q, step)
    ensures forall i :: 0 <= i < |QueueTheorems.AddedBy(b, q, step)| ==> QueueTheorems.AddedBy(b, q, step)[i].trial == step.t
  {
  }

  lemma OthersLogsStay(b: Batch, q: Queue, step: Step, scenario: string)
    requires |q.pcs| == |b.trials| && Enabled(b, q, step) && scenario != b.trials[step.t].scenario
    ensures LogOf(Apply(b, q, step), scenario) == LogOf(q, scenario)
  {
    StepMoves(b, q, step);
  }

  lemma InPlaceStays(b: Batch, story: seq<Event>, added: seq<Event>, n: nat, t: nat)
    requires n < |story| && t < |b.trials| && InPlace(b, story, n, t)
    ensures InPlace(b, story + added, n, t)
  {
    forall k, outcome
      ensures Over(story + added, n, t, b.trials[t].mode, k, outcome) <==> Over(story, n, t, b.trials[t].mode, k, outcome)
    {
    }
    forall k: nat
      ensures EarnsRetry(b, story + added, n, t, k) <==> EarnsRetry(b, story, n, t, k)
    {
    }
    assert EarnsLeave(b, story + added, n, t) <==> EarnsLeave(b, story, n, t);
  }

  lemma OneMoreInPlace(b: Batch, story: seq<Event>, e: Event, t: nat)
    requires t < |b.trials| && Ordered(b, story, t) && InPlace(b, story + [e], |story|, t)
    ensures Ordered(b, story + [e], t)
  {
    forall n: nat | n < |story|
      ensures InPlace(b, story + [e], n, t)
    {
      InPlaceStays(b, story, [e], n, t);
    }
  }

  lemma EarnedBefore(b: Batch, story: seq<Event>, added: seq<Event>, t: nat)
    requires t < |b.trials|
    ensures forall k: nat :: EarnsRetry(b, story + added, |story|, t, k) <==> EarnsRetry(b, story, |story|, t, k)
    ensures EarnsLeave(b, story + added, |story|, t) <==> EarnsLeave(b, story, |story|, t)
  {
    forall k, outcome
      ensures Over(story + added, |story|, t, b.trials[t].mode, k, outcome)
         <==> Over(story, |story|, t, b.trials[t].mode, k, outcome)
    {
    }
    forall k: nat
      ensures EarnsRetry(b, story + added, |story|, t, k) <==> EarnsRetry(b, story, |story|, t, k)
    {
    }
  }

  /** Where the loop goes after an attempt is over is what its outcome earns. */
  lemma OverEarns(b: Batch, story: seq<Event>, t: nat, k: nat, outcome: Outcome)
    requires t < |b.trials| && k <= b.policy.maxRetries
    requires Over(story, |story|, t, b.trials[t].mode, k, outcome)
    ensures AfterAttempt(b.policy, k, outcome).Leaving? || AfterAttempt(b.policy, k, outcome) == BackingOff(k)
    ensures AfterAttempt(b.policy, k, outcome).Leaving? ==> EarnsLeave(b, story, |story|, t)
    ensures AfterAttempt(b.policy, k, outcome).BackingOff? ==> EarnsRetry(b, story, |story|, t, k)
  {
    if AfterAttempt(b.policy, k, outcome).Leaving? {
      assert LastWord(b.policy, k, outcome);
    } else {
      assert outcome == Failed(outcome.exception) && Repeats(b.policy, outcome);
    }
  }

  lemma SettlingTells(b: Batch, q: Queue, t: nat, outcome: Outcome, story: seq<Event>)
    requires |q.pcs| == |b.trials| && Enabled(b, q, Settle(t, outcome)) && AttemptInRange(b.policy, q.pcs[t])
    requires Ordered(b, story, t) && PcTells(b, q.pcs[t], story, t)
    ensures var r, after := Apply(b, q, Settle(t, outcome)), story + QueueTheorems.AddedBy(b, q, Settle(t, outcome));
      |r.pcs| == |q.pcs| && Ordered(b, after, t) && PcTells(b, r.pcs[t], after, t)
  {
    var k := q.pcs[t].attempt;
    var settled := story + [Settled(t, k, outcome)];
    OneMoreInPlace(b, story, Settled(t, k, outcome), t);
    if b.trials[t].mode.Mutating? {
      assert settled[|settled| - 1] == Settled(t, k, outcome);
      OneMoreInPlace(b, settled, ResetBegan(t, k), t);
      assert story + [Settled(t, k, outcome), ResetBegan(t, k)] == settled + [ResetBegan(t, k)];
    } else {
      OverEarns(b, settled, t, k, outcome);
    }
  }

  lemma ResettingTells(b: Batch, q: Queue, t: nat, story: seq<Event>)
    requires |q.pcs| == |b.trials| && Enabled(b, q, FinishReset(t)) && AttemptInRange(b.policy, q.pcs[t])
    requires Ordered(b, story, t) && PcTells(b, q.pcs[t], story, t)
    ensures var r, after := Apply(b, q, FinishReset(t)), story + QueueTheorems.AddedBy(b, q, FinishReset(t));
      |r.pcs| == |q.pcs| && Ordered(b, after, t) && PcTells(b, r.pcs[t], after, t)
  {
    var Resetting(k, outcome) := q.pcs[t];
    var after := story + [ResetEnded(t, k)];
    OneMoreInPlace(b, story, ResetEnded(t, k), t);
    assert after[|after| - 3] == story[|story| - 2] && after[|after| - 2] == story[|story| - 1];
    OverEarns(b, after, t, k, outcome);
  }

  /** Every other step: one event, or none. */
  lemma OtherStepTells(b: Batch, q: Queue, step: Step, story: seq<Event>)
    requires |q.pcs| == |b.trials| && Enabled(b, q, step) && !step.Settle? && !step.FinishReset?
    requires Ordered(b, story, step.t) && PcTells(b, q.pcs[step.t], story, step.t)
    ensures var r, after := Apply(b, q, step), story + QueueTheorems.AddedBy(b, q, step);
      |r.pcs| == |q.pcs| && Ordered(b, after, step.t) && PcTells(b, r.pcs[step.t], after, step.t)
  {
    var added := QueueTheorems.AddedBy(b, q, step);
    if added == [] {
      assert story + added == story;
    } else {
      EarnedBefore(b, story, added, step.t);
      OneMoreInPlace(b, story, added[0], step.t);
    }
  }

  /** The trials' stories are in order, and each program point tells where its trial's stands. */
  ghost predicate StoryInv(b: Batch, q: Queue) {
    |q.pcs| == |b.trials|
    && forall t: nat :: t < |b.trials| ==> Ordered(b, Story(b, q, t), t) && PcTells(b, q.pcs[t], Story(b, q, t), t)
  }

  lemma StepKeepsStory(b: Batch, q: Queue, step: Step)
    requires Inv(b, q) && StoryInv(b, q) && Enabled(b, q, step)
    ensures StoryInv(b, Apply(b, q, step))
  {
    var r := Apply(b, q, step);
    StepMoves(b, q, step);
    forall u: nat | u < |b.trials|
      ensures Ordered(b, Story(b, r, u), u) && PcTells(b, r.pcs[u], Story(b, r, u), u)
    {
      StepTells(b, q, step, u);
      var story := Story(b, q, u);
      assert Ordered(b, story, u) && PcTells(b, q.pcs[u], story, u);
      if u != step.t {
        assert story + [] == story;
      } else if step.Settle? {
        SettlingTells(b, q, u, step.outcome, story);
      } else if step.FinishReset? {
        ResettingTells(b, q, u, story);
      } else {
        OtherStepTells(b, q, step, story);
      }
    }
  }

  lemma {:induction false} ReachableStory(b: Batch, steps: seq<Step>)
    requires IsRun(b, steps)
    ensures StoryInv(b, After(b, steps))
    decreases |steps|
  {
    if steps != [] {
      ReachableInv(b, steps[..|steps| - 1]);
      ReachableStory(b, steps[..|steps| - 1]);
      StepKeepsStory(b, After(b, steps[..|steps| - 1]), steps[|steps| - 1]);
    }
  }

  // ---- what every run says -----------------------------------------------------------------------

  ghost function StoryOf(b: Batch, steps: seq<Step>, t: nat): seq<Event>
    requires IsRun(b, steps) && t < |b.trials|
  {
    Story(b, After(b, steps), t)
  }

  /**
   Over every run: a trial begins its first attempt once and first of all, and a later one only
   right after the attempt before it - and, if the trial mutates, that attempt's reset - is over,
   with a failure that is not excluded and is allowed, and with a retry left.
   */
  lemma RetriesAreEarned(b: Batch, steps: seq<Step>, t: nat, n: nat)
    requires IsRun(b, steps) && t < |b.trials| && n < |StoryOf(b, steps, t)| && StoryOf(b, steps, t)[n].Began?
    ensures var story := StoryOf(b, steps, t); var k := story[n].attempt; var p := b.policy;
      && (k == 0 <==> n == 0)
      && k <= p.maxRetries
      && (k > 0 ==> exists x ::
            && x !in p.excluded && (p.included == Everything || (p.included.Only? && x in p.included.names))
            && Over(story, n, t, b.trials[t].mode, k - 1, Failed(x)))
  {
    ReachableStory(b, steps);
    assert InPlace(b, StoryOf(b, steps, t), n, t);
  }

  /**
   Over every run: a trial leaves only right after it raised, was interrupted, or its last attempt
   was over with a clean result, a failure the policy does not repeat, or no retry left.
   */
  lemma LeavingIsEarned(b: Batch, steps: seq<Step>, t: nat, n: nat)
    requires IsRun(b, steps) && t < |b.trials| && n < |StoryOf(b, steps, t)| && StoryOf(b, steps, t)[n].Left?
    ensures var story := StoryOf(b, steps, t); var p := b.policy;
      && n == |story| - 1 && n >= 1
      && (story[n - 1] == Raised(t) || story[n - 1] == Interrupted(t)
          || exists k, outcome ::
               && Over(story, n, t, b.trials[t].mode, k, outcome)
               && (outcome == Clean || k == p.maxRetries || outcome.exception in p.excluded
                   || (p.included.Only? && outcome.exception !in p.included.names)))
  {
    ReachableStory(b, steps);
    var story := StoryOf(b, steps, t);
    assert InPlace(b, story, n, t);
    LeftIsLast(b, story, t, n);
    LeavingMeans(b, story, n, t);
  }

  lemma LeavingMeans(b: Batch, story: seq<Event>, n: nat, t: nat)
    requires n <= |story| && t < |b.trials| && EarnsLeave(b, story, n, t)
    ensures n >= 1
    ensures story[n - 1] == Raised(t) || story[n - 1] == Interrupted(t) || exists k, outcome ::
      && Over(story, n, t, b.trials[t].mode, k, outcome)
      && (outcome == Clean || k == b.policy.maxRetries || outcome.exception in b.policy.excluded
          || (b.policy.included.Only? && outcome.exception !in b.policy.included.names))
  {
    if !(story[n - 1] == Raised(t) || story[n - 1] == Interrupted(t)) {
      var k, outcome :| LastWord(b.policy, k, outcome) && Over(story, n, t, b.trials[t].mode, k, outcome);
    }
  }

  lemma LeftIsLast(b: Batch, story: seq<Event>, t: nat, n: nat)
    requires t < |b.trials| && Ordered(b, story, t) && n < |story| && story[n].Left?
    ensures n == |story| - 1
  {
    assert n + 1 < |story| ==> InPlace(b, story, n + 1, t);
  }

  /**
   Over every run: what follows an attempt that is over. After a clean result, a failure the policy
   does not repeat, or the last attempt allowed, the trial leaves; after any other failure it
   attempts again, unless a cancel interrupts its backoff.
   */
  lemma OutcomeDecidesTheNext(b: Batch, steps: seq<Step>, t: nat, n: nat, k: nat, outcome: Outcome)
    requires IsRun(b, steps) && t < |b.trials| && n < |StoryOf(b, steps, t)|
    requires Over(StoryOf(b, steps, t), n, t, b.trials[t].mode, k, outcome)
    ensures var next := StoryOf(b, steps, t)[n]; var p := b.policy;
      if outcome == Clean || k == p.maxRetries || outcome.exception in p.excluded
         || (p.included.Only? && outcome.exception !in p.included.names)
      then next == Left(t) else next == Began(t, k + 1) || next == Interrupted(t)
  {
    ReachableStory(b, steps);
    var story := StoryOf(b, steps, t);
    assert InPlace(b, story, n, t);
    assert InPlace(b, story, n - 1, t);
    forall j, o | Over(story, n, t, b.trials[t].mode, j, o)
      ensures j == k && o == outcome
    {
    }
  }

  ghost predicate RanIfDone(b: Batch, q: Queue, t: nat)
    requires t < |b.trials| && t < |q.pcs|
  {
    q.pcs[t].Done? ==> Story(b, q, t) != []
  }

  lemma {:induction false} OnlyCancelsSkipTheBody(b: Batch, steps: seq<Step>, t: nat)
    requires IsRun(b, steps) && t < |b.trials| && QueueTheorems.CancelFree(steps)
    ensures |After(b, steps).pcs| == |b.trials| && RanIfDone(b, After(b, steps), t)
    decreases |steps|
  {
    ReachableInv(b, steps);
    if steps != [] {
      var before, last := steps[..|steps| - 1], steps[|steps| - 1];
      OnlyCancelsSkipTheBody(b, before, t);
      ReachableInv(b, before);
      StepMoves(b, After(b, before), last);
      StepTells(b, After(b, before), last, t);
    }
  }

  /** In a run without cancels, a finished trial has run its attempts to an end of their own. */
  lemma FinishedTrialsSettled(b: Batch, steps: seq<Step>, t: nat)
    requires IsRun(b, steps) && t < |b.trials| && QueueTheorems.CancelFree(steps)
    requires QueueTheorems.PcOf(b, steps, t).Done?
    ensures var story := StoryOf(b, steps, t); var n := |story| - 1; var p := b.policy;
      && n >= 1 && story[0] == Began(t, 0) && story[n] == Left(t)
      && (story[n - 1] == Raised(t) || exists k, outcome ::
               && Over(story, n, t, b.trials[t].mode, k, outcome)
               && (outcome == Clean || k == p.maxRetries || outcome.exception in p.excluded
                   || (p.included.Only? && outcome.exception !in p.included.names)))
  {
    DoneStoriesEnd(b, steps, t);
    NeverInterrupted(b, steps, t, |StoryOf(b, steps, t)| - 2);
    LeavingIsEarned(b, steps, t, |StoryOf(b, steps, t)| - 1);
  }

  lemma DoneStoriesEnd(b: Batch, steps: seq<Step>, t: nat)
    requires IsRun(b, steps) && t < |b.trials| && QueueTheorems.CancelFree(steps)
    requires QueueTheorems.PcOf(b, steps, t).Done?
    ensures var story := StoryOf(b, steps, t); |story| >= 2 && story[0] == Began(t, 0) && story[|story| - 1] == Left(t)
  {
    ReachableStory(b, steps);
    OnlyCancelsSkipTheBody(b, steps, t);
    EndedStory(b, StoryOf(b, steps, t), t);
  }

  lemma EndedStory(b: Batch, story: seq<Event>, t: nat)
    requires t < |b.trials| && Ordered(b, story, t) && PcTells(b, Done, story, t) && story != []
    ensures |story| >= 2 && story[0] == Began(t, 0) && story[|story| - 1] == Left(t)
  {
    StoriesBegin(b, story, t);
  }

  lemma NeverInterrupted(b: Batch, steps: seq<Step>, t: nat, n: nat)
    requires IsRun(b, steps) && t < |b.trials| && QueueTheorems.CancelFree(steps) && n < |StoryOf(b, steps, t)|
    ensures !StoryOf(b, steps, t)[n].Interrupted?
  {
    var log := LogOf(After(b, steps), b.trials[t].scenario);
    QueueTheorems.CancelFreeIsUninterrupted(b, steps, b.trials[t].scenario);
    OwnIsPart(log, t);
    assert Own(log, t)[n] in Own(log, t);
  }

  lemma StoriesBegin(b: Batch, story: seq<Event>, t: nat)
    requires t < |b.trials| && Ordered(b, story, t) && story != []
    ensures story[0] == Began(t, 0)
  {
    assert InPlace(b, story, 0, t);
  }

  lemma {:induction false} OwnIsPart(log: seq<Event>, t: nat)
    ensures forall e :: e in Own(log, t) <==> e in log && e.trial == t
  {
    if log != [] {
      OwnIsPart(log[..|log| - 1], t);
      assert log == log[..|log| - 1] + [log[|log| - 1]];
    }
  }

  // ---- who waits for whom ------------------------------------------------------------------------

  /**
   In every reachable state: a trial that comes to its gate, or looks again, enters exactly if every
   trial inside it - of its own scenario - is read-only and so is it, and waits otherwise. Readers
   share a scenario; nothing in another scenario keeps a trial waiting.
   */
  lemma EntersUnlessExcluded(b: Batch, steps: seq<Step>, step: Step)
    requires IsRun(b, steps) && Enabled(b, After(b, steps), step) && (step.Arrive? || step.Wake?)
    ensures var q, t := After(b, steps), step.t; var next := Apply(b, q, step).pcs[t];
      && |q.pcs| == |b.trials|
      && (next.WaitingSlot? || next.WaitingGate?)
      && (next.WaitingSlot? <==>
            forall u :: 0 <= u < |b.trials| && b.trials[u].scenario == b.trials[t].scenario && Holding(q.pcs[u])
                        ==> b.trials[u].mode.ReadOnly? && b.trials[t].mode.ReadOnly?)
  {
    ReachableInv(b, steps);
    var q, t := After(b, steps), step.t;
    assert GateTells(b, q, b.trials[t].scenario);
    InsideMeans(b, q, b.trials[t].scenario, ReadOnly);
    InsideMeans(b, q, b.trials[t].scenario, Mutating);
  }

  lemma InsideMeans(b: Batch, q: Queue, scenario: string, mode: Mode)
    requires |q.pcs| == |b.trials|
    ensures Holders(b, q, scenario, mode) == {} <==>
      forall u :: 0 <= u < |b.trials| && b.trials[u].scenario == scenario && Holding(q.pcs[u]) ==> b.trials[u].mode != mode
  {
    if Holders(b, q, scenario, mode) == {} {
      forall u | 0 <= u < |b.trials| && b.trials[u].scenario == scenario && Holding(q.pcs[u])
        ensures b.trials[u].mode != mode
      {
        QueueTheorems.HolderIsCounted(b, q, u, mode);
      }
    } else {
      var u :| u in Holders(b, q, scenario, mode);
      QueueTheorems.HolderIsCounted(b, q, u, mode);
    }
  }
}
