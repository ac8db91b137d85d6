/**
 The task trial: refuse contaminated accounts, start the container, run pre-invoke and the agent,
 tear down with post-invoke at most once, and reset the scenario account after a settled mutating
 run. Harbor's own steps are oracles, like every call into AWS and docker.
 */
module TaskTrials {
  import opened Clouds
  import opened ScenarioTrials

  /** `setup` is the scenario whose accounts the task runs on, and which its reset restores. */
  datatype Task = Task(setup: Setup, mutating: bool, verifyEnv: bool, preInvoke: bool, postInvoke: bool)

  /** Everything a task trial does inside its container, and each base teardown. */
  datatype Touch = PreInvoke | AgentBody | PostInvoke | Teardown

  /**
   `containerUp`: whether a base preparation that did not return still got the container running.
   `stops`: how post-invoke would end each time teardown stops the agent environment. `finish`:
   how Harbor's finalization ends on a run that was not cancelled.
   */
  datatype TaskOracle = TaskOracle(
    flagRead: Verdict, preparation: Verdict, containerUp: bool, preInvoke: Verdict, body: Verdict,
    stops: seq<Verdict>, finish: Ended, creation: Verdict, reset: RunOracle)

  /** `recorded`: the failures teardown hands to Harbor's record instead of raising them. */
  datatype TaskState = TaskState(cloud: Cloud, containerUp: bool, postInvoked: bool, touches: seq<Touch>, recorded: seq<Error>)

  predicate ValidTask(t: Task, o: TaskOracle) {
    ValidSetup(t.setup) && ValidOracle(t.setup, o.reset)
  }

  function Touching(st: TaskState, touch: Touch): TaskState {
    st.(touches := st.touches + [touch])
  }

  /** From preparation to the end of the agent's body. */
  function Perform(t: Task, st: TaskState, o: TaskOracle): (TaskState, Ended) {
    if t.verifyEnv && !o.flagRead.Fine? then (st, Awaited(o.flagRead))
    else if t.verifyEnv && t.setup.accounts * st.cloud.flagged != {} then
      (st, Raises(AccountContaminated(t.setup.accounts * st.cloud.flagged)))
    else if !o.preparation.Fine? then (st.(containerUp := o.containerUp), Awaited(o.preparation))
    else
      var ready := st.(containerUp := true, cloud := Noting(st.cloud, TaskBegan(t.setup.accounts, t.verifyEnv)));
      var invoked := if t.preInvoke then Touching(ready, PreInvoke) else ready;
      if t.preInvoke && !o.preInvoke.Fine? then (invoked, Awaited(o.preInvoke))
      else (Touching(invoked, AgentBody), Awaited(o.body))
  }

  predicate RunsPostInvoke(t: Task, st: TaskState) {
    st.containerUp && !st.postInvoked && t.postInvoke
  }

  function ErrorsOf(v: Verdict): seq<Error> {
    match v
    case Fine => []
    case Fails(message) => [Other(message)]
    case Cancels => [Cancelled]
  }

  function AfterStop(t: Task, st: TaskState, postInvoke: Verdict): TaskState {
    if RunsPostInvoke(t, st) then
      Touching(Touching(st.(postInvoked := true, recorded := st.recorded + ErrorsOf(postInvoke)), PostInvoke), Teardown)
    else Touching(st, Teardown)
  }

  function AfterStops(t: Task, st: TaskState, stops: seq<Verdict>): TaskState {
    if stops == [] then st else AfterStop(t, AfterStops(t, st, stops[..|stops| - 1]), stops[|stops| - 1])
  }

  /** Harbor's run: failures are recorded, cancellations re-raised after the teardown. */
  function BaseRun(t: Task, st: TaskState, o: TaskOracle): (TaskState, Ended) {
    var (performed, ended) := Perform(t, st, o);
    (AfterStops(t, performed, o.stops), if ended.Unwinds? then Unwinds else o.finish)
  }

  /** Only a cancellation gets out of the reset. */
  function ResetAfter(t: Task, c: Cloud, o: TaskOracle): (Cloud, Ended)
    requires ValidTask(t, o)
  {
    match o.creation
    case Cancels => (c, Unwinds)
    case Fails(_) => (c, Returns)
    case Fine =>
      var report := ScenarioTrials.Run(t.setup, c, Reset, o.reset);
      (report.cloud, if report.escapes then Unwinds else Returns)
  }

  function Arriving(c: Cloud): TaskState {
    TaskState(c, false, false, [], [])
  }

  function RunTask(t: Task, c: Cloud, o: TaskOracle): (TaskState, Ended)
    requires ValidTask(t, o)
  {
    var (settled, ended) := BaseRun(t, Arriving(c), o);
    if !ended.Returns? || !t.mutating then (settled, ended)
    else
      var (cloud, reset) := ResetAfter(t, settled.cloud, o);
      (settled.(cloud := cloud), reset)
  }

  // ---- the trial object ------------------------------------------------------------------------

  class TaskTrial {
    const task: Task
    var cloud: Cloud
    var agentContainerStarted: bool
    var postInvokeDone: bool
    var touches: seq<Touch>
    var recorded: seq<Error>

    ghost function State(): TaskState
      reads this
    {
      TaskState(cloud, agentContainerStarted, postInvokeDone, touches, recorded)
    }

    constructor (task: Task, cloud: Cloud)
      ensures this.task == task && State() == Arriving(cloud)
    {
      this.task, this.cloud := task, cloud;
      agentContainerStarted, postInvokeDone, touches, recorded := false, false, [], [];
    }

    method Prepare(o: TaskOracle) returns (ended: Ended)
      modifies this`cloud, this`agentContainerStarted, this`touches
      ensures
        var (performed, outcome) := Perform(task, old(State()), o);
        if ended.Returns? then
          State().(touches := touches + [AgentBody]) == performed && outcome == Awaited(o.body)
        else State() == performed && outcome == ended
    {
      if task.verifyEnv {
        if !o.flagRead.Fine? {
          return Awaited(o.flagRead);
        }
        var contaminated := task.setup.accounts * cloud.flagged;
        if contaminated != {} {
          return Raises(AccountContaminated(contaminated));
        }
      }
      if !o.preparation.Fine? {
        agentContainerStarted := o.containerUp;
        return Awaited(o.preparation);
      }
      agentContainerStarted := true;
      cloud := Noting(cloud, TaskBegan(task.setup.accounts, task.verifyEnv));
      if task.preInvoke {
        touches := touches + [PreInvoke];
        if !o.preInvoke.Fine? {
          return Awaited(o.preInvoke);
        }
      }
      return Returns;
    }

    /**
     A failing or cancelled post-invoke is recorded, never raised: the base teardown runs and its
     own outcome is all the caller sees.
     */
    method StopAgentEnvironment(postInvoke: Verdict, base: Verdict) returns (ended: Ended)
      modifies this`postInvokeDone, this`touches, this`recorded
      ensures State() == AfterStop(task, old(State()), postInvoke)
      ensures ended == Awaited(base)
    {
      var runPostInvoke := agentContainerStarted && !postInvokeDone && task.postInvoke;
      if runPostInvoke {
        postInvokeDone := true;
        touches := touches + [PostInvoke];
        match postInvoke
        case Fine =>
        case Fails(message) => recorded := recorded + [Other(message)];
        case Cancels => recorded := recorded + [Cancelled];
      }
      touches := touches + [Teardown];
      return Awaited(base);
    }

    method ResetScenarioAccount(o: TaskOracle) returns (ended: Ended)
      requires ValidTask(task, o)
      modifies this`cloud
      ensures (cloud, ended) == ResetAfter(task, old(cloud), o)
    {
      match o.creation
      case Cancels => return Unwinds;
      case Fails(_) => return Returns;
      case Fine =>
        var report := ScenarioTrials.Run(task.setup, cloud, Reset, o.reset);
        cloud := report.cloud;
        return if report.escapes then Unwinds else Returns;
    }

    method Run(o: TaskOracle) returns (ended: Ended)
      requires ValidTask(task, o) && State() == Arriving(cloud)
      modifies this
      ensures (State(), ended) == RunTask(task, old(cloud), o)
    {
      var performed := Prepare(o);
      if performed.Returns? {
        touches := touches + [AgentBody];
        performed := Awaited(o.body);
      }
      ghost var before := State();
      var n := 0;
      while n < |o.stops|
        invariant n <= |o.stops| && State() == AfterStops(task, before, o.stops[..n])
      {
        assert o.stops[..n + 1][..n] == o.stops[..n];
        var _ := StopAgentEnvironment(o.stops[n], Fine);
        n := n + 1;
      }
      assert o.stops[..n] == o.stops;
      ended := if performed.Unwinds? then Unwinds else o.finish;
      if ended.Returns? && task.mutating {
        ended := ResetScenarioAccount(o);
      }
    }
  }
}

/** What task trials guarantee, and what every session of trials does. */
module TaskTheorems {
  import opened Clouds
  import opened ScenarioTrials
  import opened TaskTrials
  import ScenarioTheorems

  // ---- histories only grow -------------------------------------------------------------------------

  lemma {:induction false} CapturedAppends(s: Setup, c: Cloud, captures: seq<Capture>)
    ensures Extends(c, Captured(s, c, captures))
  {
    if captures != [] {
      CapturedAppends(s, c, captures[..|captures| - 1]);
    }
  }

  lemma GatesAppend(s: Setup, st: RunState, checkFlag: bool, o: ContainerOracle)
    ensures Extends(st.cloud, DeployGates(s, st, checkFlag, o).0.cloud)
  {
  }

  lemma ExecuteAppends(s: Setup, st: RunState, phase: Phase, recovery: bool, o: ContainerOracle)
    ensures Extends(st.cloud, Execute(s, st, phase, recovery, o).0.cloud)
  {
  }

  lemma ContainerAppends(s: Setup, st: RunState, phase: Phase, checkFlag: bool, o: ContainerOracle)
    ensures Extends(st.cloud, PhaseInContainer(s, st, phase, checkFlag, o).0.cloud)
  {
    var up := Acting(st, EnvironmentStart).(started := true);
    GatesAppend(s, up, checkFlag, o);
    var gated := if phase.Deploy? then DeployGates(s, up, checkFlag, o).0 else up;
    ExecuteAppends(s, Acting(gated, PhaseStart), phase, !checkFlag, o);
  }

  lemma {:induction false} RedeployAppends(s: Setup, st: RunState, attempt: nat, o: ResetOracle)
    requires Answers(o) && 1 <= attempt <= REDEPLOY_MAX_ATTEMPTS
    ensures Extends(st.cloud, Redeploy(s, st, attempt, o).0.cloud)
    decreases REDEPLOY_MAX_ATTEMPTS - attempt
  {
    ContainerAppends(s, st, Deploy, false, o.deploys[attempt - 1]);
    var (after, ended) := PhaseInContainer(s, st, Deploy, false, o.deploys[attempt - 1]);
    if ended.Raises? && attempt < REDEPLOY_MAX_ATTEMPTS && o.sleeps[attempt - 1].Fine? {
      RedeployAppends(s, after, attempt + 1, o);
    }
  }

  lemma {:induction false} TagAllAppends(c: Cloud, records: seq<ResetRecord>, i: nat, o: ResetOracle)
    requires i <= |records| == |o.tagging|
    ensures forall e :: Extends(c, TagAll(c, records, i, e, o).0)
    decreases |records| - i
  {
    if i < |records| {
      if records[i].account.None? {
        TagAllAppends(c, records, i + 1, o);
      } else {
        TagAllAppends(Tagged(c, records[i].account.value, records[i].success, o.tagging[i]), records, i + 1, o);
      }
    }
  }

  lemma ResetAppends(s: Setup, st: RunState, o: ResetOracle)
    requires Answers(o)
    ensures Extends(st.cloud, RunReset(s, st, o).0.cloud)
  {
    if o.verdict.Fine? {
      RedeployAppends(s, st, 1, o);
      CapturedAppends(s, Redeploy(s, st, 1, o).0.cloud, o.snapshot.captures);
      var (after, recreated) := if NeedsRedeploy(o.records) then Recreate(s, st, o) else (st, Returns);
      if !recreated.Unwinds? {
        TagAllAppends(after.cloud, Judged(o.records, recreated.Returns?), 0, o);
      }
    }
  }

  lemma CleanupAppends(s: Setup, c: Cloud, scriptFailed: bool, o: CleanupOracle)
    requires Covers(s, o)
    ensures Extends(c, RunCleanup(s, c, scriptFailed, o).0)
  {
    if o.verdict.Fine? {
      ScenarioTheorems.ReportingTouchesNothing(s, c, o.records);
      var judged := Noting(Reporting(s, c, o.records), CleanupJudged(s.scenario, s.accounts));
      ScenarioTheorems.DeletedAllAppends(s, judged, |o.targets|, o);
      ScenarioTheorems.ClearAllAppends(DeletedAll(s, judged, |o.targets|, o), 0, o);
    }
  }

  /** A run opens with its own beginning and rewrites nothing. */
  lemma RunAppends(s: Setup, c: Cloud, phase: Phase, o: RunOracle)
    requires ValidOracle(s, o)
    ensures Extends(Noting(c, TrialBegan(s.scenario, phase)), ScenarioTrials.Run(s, c, phase, o).cloud)
  {
    var begun := Acting(Begun(s, c, phase), Start);
    ContainerAppends(s, begun, phase, true, o.container);
    var (st, script) := ScriptPart(s, begun, phase, o);
    match phase
    case Deploy => CapturedAppends(s, st.cloud, o.snapshot.captures);
    case Verify =>
    case Reset => ResetAppends(s, st, o.reset);
    case Cleanup => CleanupAppends(s, st.cloud, script.Raises?, o.cleanup);
  }

  /** A reset run does so too. */
  lemma ResetRunAppends(s: Setup, c: Cloud, o: RunOracle)
    requires ValidOracle(s, o)
    ensures c.history + [TrialBegan(s.scenario, Reset)] <= ScenarioTrials.Run(s, c, Reset, o).cloud.history
    ensures ScenarioTrials.Run(s, c, Reset, o).cloud.atFirst == c.atFirst
  {
    RunAppends(s, c, Reset, o);
  }

  // ---- one task trial ------------------------------------------------------------------------------

  function Count(touches: seq<Touch>, touch: Touch): nat {
    if touches == [] then 0
    else Count(touches[..|touches| - 1], touch) + (if touches[|touches| - 1] == touch then 1 else 0)
  }

  lemma CountOfLast(touches: seq<Touch>, last: Touch, touch: Touch)
    ensures Count(touches + [last], touch) == Count(touches, touch) + (if last == touch then 1 else 0)
  {
    assert (touches + [last])[..|touches|] == touches;
  }

  /**
   However often teardown stops the environment, the base teardown runs each time, and post-invoke
   once - on the first stop - if the container ever came up and the task ships the script, else
   never; what is recorded is how that one run went.
   */
  lemma {:induction false} PostInvokeRunsOnce(t: Task, st: TaskState, stops: seq<Verdict>)
    requires !st.postInvoked
    ensures var after := AfterStops(t, st, stops); var runs := stops != [] && RunsPostInvoke(t, st);
      && Count(after.touches, Teardown) == Count(st.touches, Teardown) + |stops|
      && Count(after.touches, PostInvoke) == Count(st.touches, PostInvoke) + (if runs then 1 else 0)
      && after.recorded == st.recorded + (if runs then ErrorsOf(stops[0]) else [])
      && after.containerUp == st.containerUp && (after.postInvoked <==> runs)
  {
    if stops != [] {
      PostInvokeRunsOnce(t, st, stops[..|stops| - 1]);
      CountsAfterStop(t, AfterStops(t, st, stops[..|stops| - 1]), stops[|stops| - 1]);
    }
  }

  lemma CountsAfterStop(t: Task, st: TaskState, postInvoke: Verdict)
    ensures var after := AfterStop(t, st, postInvoke);
      && Count(after.touches, Teardown) == Count(st.touches, Teardown) + 1
      && Count(after.touches, PostInvoke) == Count(st.touches, PostInvoke) + (if RunsPostInvoke(t, st) then 1 else 0)
  {
    var invoked := if RunsPostInvoke(t, st) then st.touches + [PostInvoke] else st.touches;
    CountOfLast(st.touches, PostInvoke, PostInvoke);
    CountOfLast(st.touches, PostInvoke, Teardown);
    CountOfLast(invoked, Teardown, PostInvoke);
    CountOfLast(invoked, Teardown, Teardown);
  }

  // ---- what runs in the container ------------------------------------------------------------------

  /** The flags, if the task asks for them, were read and none of its accounts carries one. */
  predicate Passes(t: Task, c: Cloud, o: TaskOracle) {
    t.verifyEnv ==> o.flagRead.Fine? && forall a :: a in t.setup.accounts ==> a !in c.flagged
  }

  /** The container was prepared: the task is ready for its scripts. */
  predicate Ready(t: Task, c: Cloud, o: TaskOracle) {
    Passes(t, c, o) && o.preparation.Fine?
  }

  lemma {:induction false} StopsTouch(t: Task, st: TaskState, stops: seq<Verdict>)
    ensures var after := AfterStops(t, st, stops);
      && after.touches == st.touches + (if stops != [] && RunsPostInvoke(t, st) then [PostInvoke] else [])
                          + seq(|stops|, _ => Teardown)
      && after.cloud == st.cloud && after.containerUp == st.containerUp
      && (after.postInvoked <==> st.postInvoked || (stops != [] && RunsPostInvoke(t, st)))
  {
    if stops != [] {
      StopsTouch(t, st, stops[..|stops| - 1]);
      assert seq(|stops|, _ => Teardown) == seq(|stops| - 1, _ => Teardown) + [Teardown];
    }
  }

  lemma PerformOutcome(t: Task, c: Cloud, o: TaskOracle)
    ensures var (after, ended) := Perform(t, Arriving(c), o); var ready := Ready(t, c, o);
      && after.cloud == (if ready then Noting(c, TaskBegan(t.setup.accounts, t.verifyEnv)) else c)
      && after.touches == (if ready && t.preInvoke then [PreInvoke] else [])
                          + (if ready && (t.preInvoke ==> o.preInvoke.Fine?) then [AgentBody] else [])
      && (after.containerUp <==> ready || (Passes(t, c, o) && o.containerUp))
      && !after.postInvoked
  {
    assert forall a :: a in t.setup.accounts * c.flagged <==> a in t.setup.accounts && a in c.flagged;
  }

  /**
   What a task runs in its container, and in which order: pre-invoke if the container was prepared,
   the agent if moreover pre-invoke, where the task ships one, came back; then, as teardown begins,
   post-invoke if the container is up for it, and one base teardown for each stop.
   */
  lemma TaskRunsExactly(t: Task, c: Cloud, o: TaskOracle)
    requires ValidTask(t, o)
    ensures var ready := Ready(t, c, o); var up := ready || (Passes(t, c, o) && o.containerUp);
      RunTask(t, c, o).0.touches ==
        (if ready && t.preInvoke then [PreInvoke] else [])
        + (if ready && (t.preInvoke ==> o.preInvoke.Fine?) then [AgentBody] else [])
        + (if up && t.postInvoke && o.stops != [] then [PostInvoke] else [])
        + seq(|o.stops|, _ => Teardown)
  {
    PerformOutcome(t, c, o);
    StopsTouch(t, Perform(t, Arriving(c), o).0, o.stops);
  }

  /** The start of a task's scripts is noted, first of all, exactly if the container was prepared. */
  lemma TaskBeginsExactly(t: Task, c: Cloud, o: TaskOracle)
    requires ValidTask(t, o)
    ensures var h := RunTask(t, c, o).0.cloud.history;
      && c.history <= h
      && (|h| > |c.history| && h[|c.history|] == TaskBegan(t.setup.accounts, t.verifyEnv) <==> Ready(t, c, o))
  {
    PerformOutcome(t, c, o);
    var performed := Perform(t, Arriving(c), o).0;
    StopsTouch(t, performed, o.stops);
    ResetRunAppends(t.setup, performed.cloud, o.reset);
  }

  /** A cancellation landed in the first of the task's steps not to come back. */
  predicate CutOff(t: Task, c: Cloud, o: TaskOracle) {
    || (t.verifyEnv && o.flagRead.Cancels?)
    || (Passes(t, c, o) && o.preparation.Cancels?)
    || (Ready(t, c, o) && t.preInvoke && o.preInvoke.Cancels?)
    || (Ready(t, c, o) && (t.preInvoke ==> o.preInvoke.Fine?) && o.body.Cancels?)
  }

  /** A task's run settles exactly if nothing cut it off and its finalization came back. */
  lemma SettlesExactly(t: Task, c: Cloud, o: TaskOracle)
    ensures Settles(t, c, o) <==> !CutOff(t, c, o) && o.finish.Returns?
  {
    assert forall a :: a in t.setup.accounts * c.flagged <==> a in t.setup.accounts && a in c.flagged;
  }

  predicate OnlyTeardowns(touches: seq<Touch>) {
    forall i :: 0 <= i < |touches| ==> touches[i].Teardown?
  }

  lemma {:induction false} IdleStops(t: Task, st: TaskState, stops: seq<Verdict>)
    requires !st.containerUp && OnlyTeardowns(st.touches)
    ensures var after := AfterStops(t, st, stops);
      OnlyTeardowns(after.touches) && !after.containerUp && after.cloud == st.cloud && after.recorded == st.recorded
  {
    if stops != [] {
      IdleStops(t, st, stops[..|stops| - 1]);
    }
  }

  /**
   A verifying task whose accounts hold a flagged one does nothing in any container - no
   pre-invoke, no agent, no post-invoke - and notes no start. If it is a mutating task it is
   still reset, since a refused run is a settled one.
   */
  lemma RefusedTaskTouchesNothing(t: Task, c: Cloud, o: TaskOracle)
    requires ValidTask(t, o) && t.verifyEnv && t.setup.accounts * c.flagged != {}
    ensures var (after, ended) := RunTask(t, c, o);
      && OnlyTeardowns(after.touches)
      && (!t.mutating || o.flagRead.Cancels? || !o.finish.Returns? ==> after.cloud == c)
      && (t.mutating && !o.flagRead.Cancels? && o.finish.Returns? && o.creation.Fine?
          ==> c.history + [TrialBegan(t.setup.scenario, Reset)] <= after.cloud.history)
  {
    IdleStops(t, Arriving(c), o.stops);
    ResetRunAppends(t.setup, c, o.reset);
  }

  /** The run settled: it was not cancelled and Harbor's finalization returned. */
  predicate Settles(t: Task, c: Cloud, o: TaskOracle) {
    BaseRun(t, Arriving(c), o).1.Returns?
  }

  /**
   A mutating run is followed by a reset exactly when it settled (and the reset trial could be
   built); and then nothing but a cancellation inside that reset gets out of the task.
   */
  lemma ResetFollowsSettledRuns(t: Task, c: Cloud, o: TaskOracle)
    requires ValidTask(t, o)
    ensures var base, after := BaseRun(t, Arriving(c), o).0.cloud, RunTask(t, c, o);
      && (base.history + [TrialBegan(t.setup.scenario, Reset)] <= after.0.cloud.history
          <==> t.mutating && Settles(t, c, o) && o.creation.Fine?)
      && (t.mutating && Settles(t, c, o)
          ==> !after.1.Raises?
              && (after.1.Unwinds? <==> o.creation.Cancels?
                                        || (o.creation.Fine? && ScenarioTrials.Run(t.setup, base, Reset, o.reset).escapes)))
  {
    ResetRunAppends(t.setup, BaseRun(t, Arriving(c), o).0.cloud, o.reset);
  }

  lemma PerformKeepsInv(t: Task, c: Cloud, o: TaskOracle)
    requires CloudInv(c)
    ensures CloudInv(Perform(t, Arriving(c), o).0.cloud)
  {
    var f := TaskBegan(t.setup.accounts, t.verifyEnv);
    if !t.verifyEnv || t.setup.accounts * c.flagged == {} {
      forall a | a in t.setup.accounts && t.verifyEnv
        ensures !Blocked(c.history, a) && a !in c.flagged
      {
        assert a !in t.setup.accounts * c.flagged;
      }
      NotingKeepsInv(c, f, Noting(c, f));
    }
  }

  lemma {:induction false} StopsKeepCloud(t: Task, st: TaskState, stops: seq<Verdict>)
    ensures AfterStops(t, st, stops).cloud == st.cloud
  {
    if stops != [] {
      StopsKeepCloud(t, st, stops[..|stops| - 1]);
    }
  }

  lemma TaskKeepsInv(t: Task, c: Cloud, o: TaskOracle)
    requires ValidTask(t, o) && CloudInv(c)
    ensures CloudInv(RunTask(t, c, o).0.cloud)
  {
    PerformKeepsInv(t, c, o);
    var performed := Perform(t, Arriving(c), o).0;
    StopsKeepCloud(t, performed, o.stops);
    ScenarioTheorems.RunKeepsInv(t.setup, performed.cloud, Reset, o.reset);
  }

  // ---- every session -------------------------------------------------------------------------------

  datatype Op =
    | InitCapture(scenario: string, account: Account, stored: bool)
    | ScenarioRun(setup: Setup, phase: Phase, oracle: RunOracle)
    | TaskRun(task: Task, answers: TaskOracle)

  predicate ValidOp(op: Op) {
    match op
    case InitCapture(_, _, _) => true
    case ScenarioRun(setup, _, oracle) => ValidSetup(setup) && ValidOracle(setup, oracle)
    case TaskRun(task, answers) => ValidTask(task, answers)
  }

  /** An existing init baseline is never recaptured. */
  function Applied(c: Cloud, op: Op): Cloud
    requires ValidOp(op)
  {
    match op
    case InitCapture(scenario, a, stored) =>
      if !stored || (scenario, a, PreSetup) in c.baselines then c
      else Noting(c, InitCaptured(scenario, a)).(baselines := c.baselines + {(scenario, a, PreSetup)})
    case ScenarioRun(setup, phase, oracle) => ScenarioTrials.Run(setup, c, phase, oracle).cloud
    case TaskRun(task, answers) => RunTask(task, c, answers).0.cloud
  }

  predicate ValidSession(ops: seq<Op>) {
    forall i :: 0 <= i < |ops| ==> ValidOp(ops[i])
  }

  function Session(c: Cloud, ops: seq<Op>): Cloud
    requires ValidSession(ops)
  {
    if ops == [] then c else Applied(Session(c, ops[..|ops| - 1]), ops[|ops| - 1])
  }

  /** Accounts as first provisioned: any may carry a flag already, none has an init baseline. */
  function Provisioned(flagged: set<Account>): Cloud {
    Cloud(flagged, {}, [], flagged)
  }

  lemma TaskAppends(t: Task, c: Cloud, o: TaskOracle)
    requires ValidTask(t, o)
    ensures Extends(c, RunTask(t, c, o).0.cloud)
  {
    PerformOutcome(t, c, o);
    var performed := Perform(t, Arriving(c), o).0;
    StopsKeepCloud(t, performed, o.stops);
    ResetRunAppends(t.setup, performed.cloud, o.reset);
  }

  /** Whatever a session does, its history only grows. */
  lemma {:induction false} SessionAppends(c: Cloud, ops: seq<Op>)
    requires ValidSession(ops)
    ensures Extends(c, Session(c, ops))
  {
    if ops != [] {
      var before, op := Session(c, ops[..|ops| - 1]), ops[|ops| - 1];
      SessionAppends(c, ops[..|ops| - 1]);
      match op
      case InitCapture(_, _, _) =>
      case ScenarioRun(setup, phase, oracle) => RunAppends(setup, before, phase, oracle);
      case TaskRun(task, answers) => TaskAppends(task, before, answers);
    }
  }

  lemma InitCaptureKeepsInv(c: Cloud, op: Op)
    requires op.InitCapture? && CloudInv(c)
    ensures CloudInv(Applied(c, op))
  {
    var f := InitCaptured(op.scenario, op.account);
    if op.stored && (op.scenario, op.account, PreSetup) !in c.baselines {
      NotingKeepsInv(c, f, Noting(c, f).(baselines := c.baselines + {(op.scenario, op.account, PreSetup)}));
    }
  }

  lemma {:induction false} SessionKeepsInv(c: Cloud, ops: seq<Op>)
    requires ValidSession(ops) && CloudInv(c)
    ensures CloudInv(Session(c, ops))
  {
    if ops != [] {
      var before, op := Session(c, ops[..|ops| - 1]), ops[|ops| - 1];
      SessionKeepsInv(c, ops[..|ops| - 1]);
      match op
      case InitCapture(_, _, _) => InitCaptureKeepsInv(before, op);
      case ScenarioRun(setup, phase, oracle) => ScenarioTheorems.RunKeepsInv(setup, before, phase, oracle);
      case TaskRun(task, answers) => TaskKeepsInv(task, before, answers);
    }
  }

  /**
   Over every session of scenario phases, task trials and captures: once an account's failed reset
   was flagged, no operator's deploy.sh and no verifying task starts on it until a reset of it
   succeeds or a wholly clean cleanup reported that very account clean.
   */
  lemma ContaminatedAccountsStayClosed(flagged: set<Account>, ops: seq<Op>, a: Account, i: nat, j: nat) returns (m: nat)
    requires ValidSession(ops)
    requires var h := Session(Provisioned(flagged), ops).history;
      i < j < |h| && h[i] == Flagged(a) && StartsOn(h[j], a)
    ensures var h := Session(Provisioned(flagged), ops).history;
      i < m < j && Restored(h, m, a)
  {
    SessionKeepsInv(Provisioned(flagged), ops);
    m := FlaggedStaysClosed(Session(Provisioned(flagged), ops).history, a, i, j);
  }

  /**
   Over every session, a flag is lifted only right after its account was so restored, whether it
   was set during the session or before it.
   */
  lemma LiftedFlagsAreEarned(flagged: set<Account>, ops: seq<Op>, a: Account, j: nat) returns (m: nat)
    requires ValidSession(ops)
    requires var h := Session(Provisioned(flagged), ops).history;
      j < |h| && h[j] == Unflagged(a)
    ensures var h := Session(Provisioned(flagged), ops).history;
      m < j && Restored(h, m, a) && forall k :: m < k < j ==> h[k].BaselineDeleted? || h[k].Unflagged?
  {
    SessionKeepsInv(Provisioned(flagged), ops);
    m := FlagsAreLiftedAfterRestoring(Session(Provisioned(flagged), ops).history, a, j);
  }

  /**
   Over every session, no operator's deploy.sh and no verifying task starts on an account that carries
   a flag just then, whether a reset of the session set it or the account came with it.
   */
  lemma NothingStartsOnFlagged(flagged: set<Account>, ops: seq<Op>, a: Account, j: nat)
    requires ValidSession(ops)
    requires var h := Session(Provisioned(flagged), ops).history; j < |h| && StartsOn(h[j], a)
    ensures !FlagSays(Session(Provisioned(flagged), ops).history[..j], flagged, a)
  {
    SessionKeepsInv(Provisioned(flagged), ops);
    SessionAppends(Provisioned(flagged), ops);
  }

  /**
   Over every session, the flags and the deploy baselines are exactly what the history says: a flag is
   there if it was last set, or never touched and there at first; a baseline if it was captured and not
   deleted since. So no flag and no baseline comes or goes unnoted.
   */
  lemma CloudIsAsNoted(flagged: set<Account>, ops: seq<Op>, scenario: string, a: Account)
    requires ValidSession(ops)
    ensures var c := Session(Provisioned(flagged), ops);
      && (a in c.flagged <==> FlagSays(c.history, flagged, a))
      && ((scenario, a, PostSetup) in c.baselines <==> PostHeld(c.history, scenario, a))
  {
    SessionKeepsInv(Provisioned(flagged), ops);
    SessionAppends(Provisioned(flagged), ops);
  }

  /** Over every session, an init baseline is stored exactly if it was captured and not deleted since. */
  lemma InitBaselinesAreAsNoted(flagged: set<Account>, ops: seq<Op>, scenario: string, a: Account)
    requires ValidSession(ops)
    ensures var c := Session(Provisioned(flagged), ops);
      (scenario, a, PreSetup) in c.baselines <==> InitCapturedBefore(c.history, |c.history|, scenario, a)
  {
    SessionKeepsInv(Provisioned(flagged), ops);
    HeldExactly(Session(Provisioned(flagged), ops).history, scenario, a);
  }

  /**
   Over every session, an account's init baseline is captured again only after a wholly clean cleanup
   deleted it.
   */
  lemma InitBaselinesAreKept(flagged: set<Account>, ops: seq<Op>, scenario: string, a: Account, i: nat, j: nat) returns (m: nat)
    requires ValidSession(ops)
    requires var h := Session(Provisioned(flagged), ops).history;
      i < j < |h| && h[i] == InitCaptured(scenario, a) && h[j] == InitCaptured(scenario, a)
    ensures var h := Session(Provisioned(flagged), ops).history;
      i < m < j && h[m] == BaselineDeleted(scenario, a, PreSetup) && DeletionIsEarned(h, m)
  {
    SessionKeepsInv(Provisioned(flagged), ops);
    var h := Session(Provisioned(flagged), ops).history;
    m := InitIsCapturedOnce(h, scenario, a, i, j);
    DeletionsAreEarned(h, m);
  }

  /** Over every session, a deploy.sh that runs on a flagged account is a reset's own redeploy. */
  lemma OnlyResetsDeployOnFlagged(flagged: set<Account>, ops: seq<Op>, a: Account, j: nat) returns (b: nat)
    requires ValidSession(ops)
    requires var h := Session(Provisioned(flagged), ops).history;
      j < |h| && h[j].DeployBegan? && a in h[j].accounts && Blocked(h[..j], a)
    ensures var h := Session(Provisioned(flagged), ops).history;
      b < j && h[b] == TrialBegan(h[j].scenario, Reset) && forall k :: b < k < j ==> !h[k].TrialBegan?
  {
    SessionKeepsInv(Provisioned(flagged), ops);
    var h := Session(Provisioned(flagged), ops).history;
    assert Allowed(h[..j], h[j]);
    b := OnlyResetsAreExempt(h, j);
  }

  /** Over every session, snapshots, deploys and baseline deletions happen only where they are safe. */
  lemma BaselinesStaySafe(flagged: set<Account>, ops: seq<Op>, j: nat)
    requires ValidSession(ops) && j < |Session(Provisioned(flagged), ops).history|
    ensures var h := Session(Provisioned(flagged), ops).history;
      && (h[j].SnapshotTaken? ==> SnapshotIsFresh(h, j))
      && (h[j].DeployBegan? ==> DeployIsGuarded(h, j))
      && (h[j].BaselineDeleted? ==> DeletionIsEarned(h, j))
  {
    SessionKeepsInv(Provisioned(flagged), ops);
    BaselinesAreSafe(Session(Provisioned(flagged), ops).history, j);
  }
}
