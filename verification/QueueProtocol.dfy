/**
 The task queue as a step relation: any number of trials over any scenarios, each holding its
 scenario's gate and then one of the global slots for its whole attempt loop, its resets and
 its backoff sleeps. A cancel may land while a trial waits for the gate, waits for a slot, or
 is in its body.
 */
module QueueProtocol {
  import opened Admission
  import opened Retry

  datatype Trial = Trial(scenario: string, mode: Mode)

  /** A batch: the trials, the slot count and the retry policy, fixed for the run. */
  datatype Batch = Batch(trials: seq<Trial>, slots: nat, policy: Policy)

  /** The batches the queue accepts: its constructor refuses fewer than one slot. */
  predicate ValidBatch(b: Batch) {
    b.slots >= 1
  }

  datatype Pc =
    | Ready
    | WaitingGate
    | WaitingSlot
    | Running(attempt: nat)
    | Resetting(attempt: nat, outcome: Outcome)
    | BackingOff(attempt: nat)
    | Leaving
    | Done

  /** What happened on one scenario, in order. */
  datatype Event =
    | Began(trial: nat, attempt: nat)
    | Settled(trial: nat, attempt: nat, outcome: Outcome)
    | ResetBegan(trial: nat, attempt: nat)
    | ResetEnded(trial: nat, attempt: nat)
    | Raised(trial: nat)
    | Interrupted(trial: nat)
    | Left(trial: nat)

  datatype Queue = Queue(pcs: seq<Pc>, gates: map<string, GateState>, free: int, log: map<string, seq<Event>>)

  datatype Step =
    | Arrive(t: nat)
    | Wake(t: nat)
    | TakeSlot(t: nat)
    | Settle(t: nat, outcome: Outcome)
    | Raise(t: nat)
    | FinishReset(t: nat)
    | Retry(t: nat)
    | Leave(t: nat)
    | Cancel(t: nat)

  function Initial(b: Batch): Queue {
    Queue(seq(|b.trials|, _ => Ready), map[], b.slots, map[])
  }

  function GateOf(q: Queue, scenario: string): GateState {
    if scenario in q.gates then q.gates[scenario] else FRESH_GATE
  }

  function LogOf(q: Queue, scenario: string): seq<Event> {
    if scenario in q.log then q.log[scenario] else []
  }

  predicate InBody(pc: Pc) {
    pc.Running? || pc.Resetting? || pc.BackingOff? || pc.Leaving?
  }

  predicate Holding(pc: Pc) {
    pc.WaitingSlot? || InBody(pc)
  }

  predicate Enabled(b: Batch, q: Queue, step: Step) {
    && step.t < |q.pcs|
    && step.t < |b.trials|
    && var pc := q.pcs[step.t];
       match step
       case Arrive(_) => pc.Ready?
       case Wake(t) => pc.WaitingGate? && t in GateOf(q, b.trials[t].scenario).woken
       case TakeSlot(_) => pc.WaitingSlot? && q.free > 0
       case Settle(_, _) => pc.Running?
       case Raise(_) => pc.Running?
       case FinishReset(_) => pc.Resetting?
       case Retry(_) => pc.BackingOff?
       case Leave(_) => pc.Leaving?
       case Cancel(_) => !pc.Leaving? && !pc.Done?
  }

  /** Where the attempt loop goes once attempt `k` (and its reset, if any) is over. */
  function AfterAttempt(p: Policy, k: nat, outcome: Outcome): Pc {
    if Final(p, k, outcome) then Leaving else BackingOff(k)
  }

  function Goto(q: Queue, t: nat, pc: Pc): Queue
    requires t < |q.pcs|
  {
    q.(pcs := q.pcs[t := pc])
  }

  function WithGate(q: Queue, scenario: string, g: GateState): Queue {
    q.(gates := q.gates[scenario := g])
  }

  function Logging(q: Queue, scenario: string, events: seq<Event>): Queue {
    q.(log := q.log[scenario := LogOf(q, scenario) + events])
  }

  /** Arriving and waking run the same critical section. */
  function Knock(b: Batch, q: Queue, t: nat): Queue
    requires t < |q.pcs| && t < |b.trials|
  {
    var Trial(scenario, mode) := b.trials[t];
    var g := GateOf(q, scenario);
    Goto(WithGate(q, scenario, TryEntered(g, t, mode)), t, if Admits(g, mode) then WaitingSlot else WaitingGate)
  }

  function Apply(b: Batch, q: Queue, step: Step): Queue
    requires Enabled(b, q, step)
  {
    var t := step.t;
    var Trial(scenario, mode) := b.trials[t];
    var g := GateOf(q, scenario);
    match step
    case Arrive(_) => Knock(b, q, t)
    case Wake(_) => Knock(b, q, t)
    case TakeSlot(_) => Logging(Goto(q, t, Running(0)).(free := q.free - 1), scenario, [Began(t, 0)])
    case Settle(_, outcome) =>
      var k := q.pcs[t].attempt;
      // A mutating trial starts its reset in the very step in which its run settles.
      if mode.Mutating? then
        Logging(Goto(q, t, Resetting(k, outcome)), scenario, [Settled(t, k, outcome), ResetBegan(t, k)])
      else
        Logging(Goto(q, t, AfterAttempt(b.policy, k, outcome)), scenario, [Settled(t, k, outcome)])
    case Raise(_) => Logging(Goto(q, t, Leaving), scenario, [Raised(t)])
    case FinishReset(_) =>
      var Resetting(k, outcome) := q.pcs[t];
      Logging(Goto(q, t, AfterAttempt(b.policy, k, outcome)), scenario, [ResetEnded(t, k)])
    case Retry(_) =>
      var k := q.pcs[t].attempt;
      Logging(Goto(q, t, Running(k + 1)), scenario, [Began(t, k + 1)])
    case Leave(_) =>
      Logging(WithGate(Goto(q, t, Done), scenario, Released(g, mode)).(free := q.free + 1), scenario, [Left(t)])
    case Cancel(_) =>
      match q.pcs[t] {
        case WaitingGate => WithGate(Goto(q, t, Done), scenario, Abandoned(g, t))
        case WaitingSlot => WithGate(Goto(q, t, Done), scenario, Released(g, mode))
        case Ready => Goto(q, t, Done)
        case _ => Logging(Goto(q, t, Leaving), scenario, [Interrupted(t)])
      }
  }

  /** `steps` is a run of the batch: each step is enabled where it is taken. */
  ghost predicate IsRun(b: Batch, steps: seq<Step>)
    decreases |steps|, 0
  {
    steps == [] || (IsRun(b, steps[..|steps| - 1])
                    && Enabled(b, After(b, steps[..|steps| - 1]), steps[|steps| - 1]))
  }

  ghost function After(b: Batch, steps: seq<Step>): Queue
    requires IsRun(b, steps)
    decreases |steps|, 1
  {
    if steps == [] then Initial(b)
    else Apply(b, After(b, steps[..|steps| - 1]), steps[|steps| - 1])
  }

  // ---- what every step keeps -------------------------------------------------------------

  /** The trials of `scenario` in `mode` that hold its gate. */
  ghost function Holders(b: Batch, q: Queue, scenario: string, mode: Mode): set<nat> {
    set t: nat | t < |b.trials| && t < |q.pcs| && Holding(q.pcs[t]) && b.trials[t] == Trial(scenario, mode)
  }

  ghost function Waiters(b: Batch, q: Queue, scenario: string): set<nat> {
    set t: nat | t < |b.trials| && t < |q.pcs| && q.pcs[t].WaitingGate? && b.trials[t].scenario == scenario
  }

  ghost function Bodies(q: Queue): set<nat> {
    set t: nat | t < |q.pcs| && InBody(q.pcs[t])
  }

  /** The gate's fields say exactly who is inside, and no un-notified waiter could enter. */
  ghost predicate Tells(b: Batch, g: GateState, readers: set<nat>, writers: set<nat>, waiters: set<nat>) {
    && g.readers == |readers|
    && (g.writerHeld <==> writers != {})
    && |writers| <= 1
    && (g.writerHeld ==> g.readers == 0)
    && g.parked !! g.woken
    && g.parked + g.woken == waiters
    && forall t :: t in g.parked ==> t < |b.trials| && !Admits(g, b.trials[t].mode)
  }

  ghost predicate GateTells(b: Batch, q: Queue, scenario: string) {
    Tells(b, GateOf(q, scenario), Holders(b, q, scenario, ReadOnly), Holders(b, q, scenario, Mutating),
          Waiters(b, q, scenario))
  }

  ghost predicate SlotsTell(b: Batch, q: Queue) {
    0 <= q.free == b.slots - |Bodies(q)|
  }

  ghost predicate AttemptInRange(p: Policy, pc: Pc) {
    match pc
    case Running(k) => k <= p.maxRetries
    case Resetting(k, _) => k <= p.maxRetries
    case BackingOff(k) => k < p.maxRetries
    case _ => true
  }

  ghost predicate Inv(b: Batch, q: Queue) {
    && |q.pcs| == |b.trials|
    && (forall scenario :: GateTells(b, q, scenario))
    && SlotsTell(b, q)
    && (forall t :: 0 <= t < |q.pcs| ==> AttemptInRange(b.policy, q.pcs[t]))
  }

  lemma InitialInv(b: Batch)
    ensures Inv(b, Initial(b))
  {
    var q := Initial(b);
    forall scenario
      ensures GateTells(b, q, scenario)
    {
      assert Holders(b, q, scenario, ReadOnly) == {};
      assert Holders(b, q, scenario, Mutating) == {};
      assert Waiters(b, q, scenario) == {};
    }
    assert Bodies(q) == {};
  }

  function Toggled(s: set<nat>, t: nat, present: bool): set<nat> {
    if present then s + {t} else s - {t}
  }

  /** `r` is `q` with trial `t` moved to another program point. */
  ghost predicate Moves(b: Batch, q: Queue, r: Queue, t: nat) {
    |q.pcs| == |b.trials| && t < |b.trials| && |r.pcs| == |q.pcs| && r.pcs == q.pcs[t := r.pcs[t]]
  }

  /** Moving one trial changes each of the sets above by at most that trial. */
  lemma MovedHolders(b: Batch, q: Queue, r: Queue, t: nat, scenario: string, mode: Mode)
    requires Moves(b, q, r, t)
    ensures Holders(b, r, scenario, mode)
         == Toggled(Holders(b, q, scenario, mode), t, b.trials[t] == Trial(scenario, mode) && Holding(r.pcs[t]))
    ensures t in Holders(b, q, scenario, mode) <==> b.trials[t] == Trial(scenario, mode) && Holding(q.pcs[t])
  {
  }

  lemma MovedWaiters(b: Batch, q: Queue, r: Queue, t: nat, scenario: string)
    requires Moves(b, q, r, t)
    ensures Waiters(b, r, scenario)
         == Toggled(Waiters(b, q, scenario), t, b.trials[t].scenario == scenario && r.pcs[t].WaitingGate?)
    ensures t in Waiters(b, q, scenario) <==> b.trials[t].scenario == scenario && q.pcs[t].WaitingGate?
  {
  }

  // The four ways a gate moves, on the bare sets.

  lemma EnterTells(b: Batch, g: GateState, readers: set<nat>, writers: set<nat>, waiters: set<nat>, t: nat)
    requires t < |b.trials| && Tells(b, g, readers, writers, waiters)
    requires t !in readers && t !in writers && t !in g.parked
    requires Admits(g, b.trials[t].mode)
    ensures b.trials[t].mode.ReadOnly? ==>
      Tells(b, TryEntered(g, t, ReadOnly), readers + {t}, writers, waiters - {t})
    ensures b.trials[t].mode.Mutating? ==>
      Tells(b, TryEntered(g, t, Mutating), readers, writers + {t}, waiters - {t})
  {
  }

  lemma ParkTells(b: Batch, g: GateState, readers: set<nat>, writers: set<nat>, waiters: set<nat>, t: nat)
    requires t < |b.trials| && Tells(b, g, readers, writers, waiters)
    requires !Admits(g, b.trials[t].mode)
    ensures Tells(b, TryEntered(g, t, b.trials[t].mode), readers, writers, waiters + {t})
  {
  }

  lemma ReleaseTells(b: Batch, g: GateState, readers: set<nat>, writers: set<nat>, waiters: set<nat>, t: nat)
    requires t < |b.trials| && Tells(b, g, readers, writers, waiters)
    requires t in (if b.trials[t].mode.ReadOnly? then readers else writers)
    ensures b.trials[t].mode.ReadOnly? ==> Tells(b, Released(g, ReadOnly), readers - {t}, writers, waiters)
    ensures b.trials[t].mode.Mutating? ==> Tells(b, Released(g, Mutating), readers, writers - {t}, waiters)
  {
    assert b.trials[t].mode.Mutating? ==> |writers - {t}| == |writers| - 1;
  }

  lemma AbandonTells(b: Batch, g: GateState, readers: set<nat>, writers: set<nat>, waiters: set<nat>, t: nat)
    requires Tells(b, g, readers, writers, waiters)
    ensures Tells(b, Abandoned(g, t), readers, writers, waiters - {t})
  {
  }

  /** What a move does to the gate, as seen by the trial that moves. */
  datatype Standing = Outside | Waits | Holds

  function StandingOf(pc: Pc): Standing {
    if Holding(pc) then Holds else if pc.WaitingGate? then Waits else Outside
  }

  /** `h` is the gate that trial `t`, changing its standing, must leave behind. */
  ghost predicate GateFollows(g: GateState, h: GateState, t: nat, mode: Mode, before: Standing, after: Standing) {
    match (before, after)
    case (Holds, Holds) => h == g
    case (Holds, Waits) => false
    case (Holds, Outside) => h == Released(g, mode)
    case (Outside, Outside) => h == g
    case (Waits, Outside) => h == Abandoned(g, t)
    case (Outside, Holds) => Admits(g, mode) && h == TryEntered(g, t, mode)
    case (Waits, Holds) => t in g.woken && Admits(g, mode) && h == TryEntered(g, t, mode)
    case (_, Waits) => !Admits(g, mode) && h == TryEntered(g, t, mode)
  }

  /** On the bare sets: `t` has standing `before` and gets standing `after`. */
  lemma StandingTells(b: Batch, g: GateState, h: GateState, before: Standing, after: Standing,
                      readers: set<nat>, writers: set<nat>, waiters: set<nat>, t: nat)
    requires t < |b.trials| && Tells(b, g, readers, writers, waiters)
    requires t in readers <==> before.Holds? && b.trials[t].mode.ReadOnly?
    requires t in writers <==> before.Holds? && b.trials[t].mode.Mutating?
    requires t in waiters <==> before.Waits?
    requires GateFollows(g, h, t, b.trials[t].mode, before, after)
    ensures Tells(b, h, Toggled(readers, t, after.Holds? && b.trials[t].mode.ReadOnly?),
                  Toggled(writers, t, after.Holds? && b.trials[t].mode.Mutating?),
                  Toggled(waiters, t, after.Waits?))
  {
    Untoggled(readers, t);
    Untoggled(writers, t);
    Untoggled(waiters, t);
    match (before, after) {
      case (Holds, Holds) =>
      case (Outside, Outside) =>
      case (Holds, Waits) =>
      case (Holds, Outside) => ReleaseTells(b, g, readers, writers, waiters, t);
      case (Waits, Outside) => AbandonTells(b, g, readers, writers, waiters, t);
      case (_, Waits) => ParkTells(b, g, readers, writers, waiters, t);
      case (Outside, Holds) => EnterTells(b, g, readers, writers, waiters, t);
      case (Waits, Holds) => EnterTells(b, g, readers, writers, waiters, t);
    }
  }

  lemma Untoggled(s: set<nat>, t: nat)
    ensures t in s ==> s + {t} == s
    ensures t !in s ==> s - {t} == s
  {
  }

  lemma HomeHolders(b: Batch, q: Queue, r: Queue, t: nat, mode: Mode) returns (held: set<nat>)
    requires Moves(b, q, r, t)
    ensures held == Holders(b, q, b.trials[t].scenario, mode)
    ensures t in held <==> StandingOf(q.pcs[t]).Holds? && b.trials[t].mode == mode
    ensures Holders(b, r, b.trials[t].scenario, mode)
         == Toggled(held, t, StandingOf(r.pcs[t]).Holds? && b.trials[t].mode == mode)
  {
    held := Holders(b, q, b.trials[t].scenario, mode);
    MovedHolders(b, q, r, t, b.trials[t].scenario, mode);
    assert b.trials[t] == Trial(b.trials[t].scenario, mode) <==> b.trials[t].mode == mode;
  }

  lemma HomeWaiters(b: Batch, q: Queue, r: Queue, t: nat) returns (waiters: set<nat>)
    requires Moves(b, q, r, t)
    ensures waiters == Waiters(b, q, b.trials[t].scenario)
    ensures t in waiters <==> StandingOf(q.pcs[t]).Waits?
    ensures Waiters(b, r, b.trials[t].scenario) == Toggled(waiters, t, StandingOf(r.pcs[t]).Waits?)
  {
    waiters := Waiters(b, q, b.trials[t].scenario);
    MovedWaiters(b, q, r, t, b.trials[t].scenario);
  }

  lemma AtHomeKept(b: Batch, q: Queue, r: Queue, t: nat, scenario: string)
    requires Moves(b, q, r, t) && GateTells(b, q, scenario) && scenario == b.trials[t].scenario
    requires GateFollows(GateOf(q, scenario), GateOf(r, scenario), t, b.trials[t].mode,
                         StandingOf(q.pcs[t]), StandingOf(r.pcs[t]))
    ensures GateTells(b, r, scenario)
  {
    var readers := HomeHolders(b, q, r, t, ReadOnly);
    var writers := HomeHolders(b, q, r, t, Mutating);
    var waiters := HomeWaiters(b, q, r, t);
    StandingTells(b, GateOf(q, scenario), GateOf(r, scenario), StandingOf(q.pcs[t]), StandingOf(r.pcs[t]),
                  readers, writers, waiters, t);
  }

  lemma AwayKept(b: Batch, q: Queue, r: Queue, t: nat, scenario: string)
    requires Moves(b, q, r, t) && GateTells(b, q, scenario)
    requires b.trials[t].scenario != scenario && GateOf(r, scenario) == GateOf(q, scenario)
    ensures GateTells(b, r, scenario)
  {
    MovedHolders(b, q, r, t, scenario, ReadOnly);
    MovedHolders(b, q, r, t, scenario, Mutating);
    MovedWaiters(b, q, r, t, scenario);
    StandingKept(Holders(b, q, scenario, ReadOnly), t);
    StandingKept(Holders(b, q, scenario, Mutating), t);
    StandingKept(Waiters(b, q, scenario), t);
  }

  lemma StandingKept(s: set<nat>, t: nat)
    ensures Toggled(s, t, t in s) == s
  {
  }

  /** Each step is such a move, and touches its own scenario's gate and log only. */
  lemma StepMoves(b: Batch, q: Queue, step: Step)
    requires |q.pcs| == |b.trials| && Enabled(b, q, step)
    ensures Moves(b, q, Apply(b, q, step), step.t)
    ensures var t := step.t; var Trial(scenario, mode) := b.trials[t];
            GateFollows(GateOf(q, scenario), GateOf(Apply(b, q, step), scenario), t, mode,
                        StandingOf(q.pcs[t]), StandingOf(Apply(b, q, step).pcs[t]))
    ensures forall scenario :: scenario != b.trials[step.t].scenario ==>
      GateOf(Apply(b, q, step), scenario) == GateOf(q, scenario)
      && LogOf(Apply(b, q, step), scenario) == LogOf(q, scenario)
  {
  }

  lemma GatesKept(b: Batch, q: Queue, step: Step)
    requires Inv(b, q) && Enabled(b, q, step)
    ensures forall scenario :: GateTells(b, Apply(b, q, step), scenario)
  {
    StepMoves(b, q, step);
    var r, t := Apply(b, q, step), step.t;
    forall scenario
      ensures GateTells(b, r, scenario)
    {
      assert GateTells(b, q, scenario);
      if scenario == b.trials[t].scenario {
        AtHomeKept(b, q, r, t, scenario);
      } else {
        AwayKept(b, q, r, t, scenario);
      }
    }
  }

  lemma MovedBodies(b: Batch, q: Queue, r: Queue, t: nat)
    requires Moves(b, q, r, t)
    ensures Bodies(r) == Toggled(Bodies(q), t, InBody(r.pcs[t]))
    ensures t in Bodies(q) <==> InBody(q.pcs[t])
  {
  }

  /** A step takes a slot exactly when its trial enters the body, and gives one back when it leaves it. */
  lemma StepMovesSlots(b: Batch, q: Queue, step: Step)
    requires |q.pcs| == |b.trials| && Enabled(b, q, step)
    ensures var r, t := Apply(b, q, step), step.t;
      && |r.pcs| == |q.pcs|
      && r.free + (if InBody(r.pcs[t]) then 1 else 0) == q.free + (if InBody(q.pcs[t]) then 1 else 0)
      && (0 <= q.free ==> 0 <= r.free)
  {
  }

  lemma SlotsKept(b: Batch, q: Queue, step: Step)
    requires |q.pcs| == |b.trials| && SlotsTell(b, q) && Enabled(b, q, step)
    ensures SlotsTell(b, Apply(b, q, step))
  {
    StepMoves(b, q, step);
    StepMovesSlots(b, q, step);
    MovedSlots(b, q, Apply(b, q, step), step.t);
  }

  lemma MovedSlots(b: Batch, q: Queue, r: Queue, t: nat)
    requires Moves(b, q, r, t) && SlotsTell(b, q) && 0 <= r.free
    requires r.free + (if InBody(r.pcs[t]) then 1 else 0) == q.free + (if InBody(q.pcs[t]) then 1 else 0)
    ensures SlotsTell(b, r)
  {
    MovedBodies(b, q, r, t);
    Untoggled(Bodies(q), t);
  }

  lemma StepKeepsInv(b: Batch, q: Queue, step: Step)
    requires Inv(b, q) && Enabled(b, q, step)
    ensures Inv(b, Apply(b, q, step))
  {
    GatesKept(b, q, step);
    SlotsKept(b, q, step);
  }

  lemma {:induction false} ReachableInv(b: Batch, steps: seq<Step>)
    requires IsRun(b, steps)
    ensures Inv(b, After(b, steps))
    decreases |steps|
  {
    if steps == [] {
      InitialInv(b);
    } else {
      ReachableInv(b, steps[..|steps| - 1]);
      StepKeepsInv(b, After(b, steps[..|steps| - 1]), steps[|steps| - 1]);
    }
  }
}
