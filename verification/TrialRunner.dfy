/**
 The scenario trial as the object that runs it: its fields are updated call by call, and each
 method is proved against the function that says what it leaves behind.
 */
module TrialRunner {
  import opened Wrappers
  import opened Clouds
  import opened ScenarioTrials
  import Spec = ScenarioTrials
  import ScenarioTheorems

  class ScenarioTrial {
    const setup: Setup
    var cloud: Cloud
    var started: bool
    var exitCode: Option<int>
    var trace: seq<Action>
    var exception: Option<Error>

    ghost function State(): RunState
      reads this
    {
      RunState(cloud, started, exitCode, trace)
    }

    constructor (setup: Setup, cloud: Cloud)
      ensures this.setup == setup && State() == RunState(cloud, false, None, []) && exception == None
    {
      this.setup, this.cloud := setup, cloud;
      started, exitCode, trace, exception := false, None, [], None;
    }

    method Note(f: Fact)
      modifies this`cloud
      ensures cloud == Noting(old(cloud), f)
    {
      cloud := cloud.(history := cloud.history + [f]);
    }

    /** First exception wins. */
    method RecordException(error: Error)
      modifies this`exception
      ensures exception == if old(exception).Some? then old(exception) else Some(error)
    {
      if exception.None? {
        exception := Some(error);
      }
    }

    method PassDeployGates(checkFlag: bool, o: ContainerOracle) returns (ended: Ended)
      modifies this`cloud
      ensures (State(), ended) == Spec.DeployGates(setup, old(State()), checkFlag, o)
    {
      if checkFlag {
        if !o.flagRead.Fine? {
          return Awaited(o.flagRead);
        }
        var contaminated := setup.accounts * cloud.flagged;
        if contaminated != {} {
          return Raises(AccountContaminated(contaminated));
        }
      }
      if !o.baselineRead.Fine? {
        return Awaited(o.baselineRead);
      }
      var missing := set a | a in setup.accounts && (setup.scenario, a, PreSetup) !in cloud.baselines;
      assert missing == MissingInit(setup, cloud);
      if missing != {} {
        return Raises(SetupInvalid(missing));
      }
      if setup.accounts != {} && setup.regions != [] {
        if !o.guardrail.Fine? {
          return Awaited(o.guardrail);
        }
        Note(GuardrailApplied(setup.scenario, setup.accounts));
        if o.tidying.Cancels? {
          return Unwinds;
        }
      }
      return Returns;
    }

    method ExecutePhase(phase: Phase, recovery: bool, o: ContainerOracle) returns (ended: Ended)
      modifies this`cloud, this`exitCode
      ensures (State(), ended) == Spec.Execute(setup, old(State()), phase, recovery, o)
    {
      if !phase.Deploy? && !o.environment.Fine? {
        return Awaited(o.environment);
      }
      if phase.Deploy? {
        Note(DeployBegan(setup.scenario, setup.accounts, recovery));
      }
      match o.script
      case TimesOut => return Raises(PhaseTimeout(phase));
      case Breaks(message) => return Raises(Other(message));
      case Stopped => return Unwinds;
      case Exits(code) =>
        exitCode := Some(code);
        if phase.Deploy? {
          Note(DeployEnded(setup.scenario, code));
        }
        return if code == 0 then Returns else Raises(NonZeroExit(phase, code));
    }

    method RunPhaseInContainer(phase: Phase, checkFlag: bool, o: ContainerOracle) returns (ended: Ended)
      modifies this`cloud, this`started, this`exitCode, this`trace
      ensures (State(), ended) == Spec.PhaseInContainer(setup, old(State()), phase, checkFlag, o)
    {
      trace := trace + [EnvironmentStart];
      if o.environmentHook.Cancels? {
        return Unwinds;
      }
      if !started {
        if !o.start.Fine? {
          started := o.startedAnyway;
          return Awaited(o.start);
        }
        started := true;
      }
      if phase.Deploy? {
        ended := PassDeployGates(checkFlag, o);
        if !ended.Returns? {
          return;
        }
      }
      trace := trace + [PhaseStart];
      if o.phaseHook.Cancels? {
        return Unwinds;
      }
      ended := ExecutePhase(phase, !checkFlag, o);
    }

    method RunSnapshot(o: SnapshotOracle) returns (ended: Ended)
      modifies this`cloud
      ensures (cloud, ended) == Spec.Snapshot(setup, old(cloud), o)
    {
      var failed := false;
      for n := 0 to |o.captures|
        invariant cloud == Captured(setup, old(cloud), o.captures[..n])
        invariant failed <==> !AllStored(o.captures[..n])
      {
        assert o.captures[..n + 1][..n] == o.captures[..n];
        var capture := o.captures[n];
        if capture.stored {
          Note(SnapshotTaken(setup.scenario, capture.account));
          cloud := cloud.(baselines := cloud.baselines + {(setup.scenario, capture.account, PostSetup)});
        } else {
          failed := true;
        }
      }
      assert o.captures[..|o.captures|] == o.captures;
      return if !o.verdict.Fine? then Awaited(o.verdict) else if failed then Raises(SnapshotFailed) else Returns;
    }

    method RedeployWithRetry(o: ResetOracle) returns (ended: Ended)
      requires Answers(o)
      modifies this`cloud, this`started, this`exitCode, this`trace
      ensures (State(), ended) == Redeploy(setup, old(State()), 1, o)
    {
      var attempt := 1;
      while true
        invariant 1 <= attempt <= REDEPLOY_MAX_ATTEMPTS
        invariant Redeploy(setup, State(), attempt, o) == Redeploy(setup, old(State()), 1, o)
        decreases REDEPLOY_MAX_ATTEMPTS - attempt
      {
        ended := RunPhaseInContainer(Deploy, false, o.deploys[attempt - 1]);
        if !ended.Raises? || attempt >= REDEPLOY_MAX_ATTEMPTS {
          return;
        }
        if !o.sleeps[attempt - 1].Fine? {
          return Awaited(o.sleeps[attempt - 1]);
        }
        attempt := attempt + 1;
      }
    }

    method ApplyContaminationTags(records: seq<ResetRecord>, o: ResetOracle) returns (clearError: Option<Error>, cut: bool)
      requires |records| == |o.tagging|
      modifies this`cloud
      ensures (cloud, clearError, cut) == TagAll(old(cloud), records, 0, None, o)
    {
      clearError, cut := None, false;
      for i := 0 to |records|
        invariant !cut
        invariant TagAll(cloud, records, i, clearError, o) == TagAll(old(cloud), records, 0, None, o)
      {
        if records[i].account.Some? {
          var a, call := records[i].account.value, o.tagging[i];
          Note(ResetJudged(a, records[i].success));
          if records[i].success {
            if call.landed || call.verdict.Fine? {
              Note(Unflagged(a));
              cloud := cloud.(flagged := cloud.flagged - {a});
            }
            if call.verdict.Fails? {
              clearError := Some(Other(call.verdict.message));
            }
          } else if call.landed || call.verdict.Fine? {
            Note(Flagged(a));
            cloud := cloud.(flagged := cloud.flagged + {a});
          }
          if call.verdict.Cancels? {
            cut := true;
            return;
          }
        }
      }
    }

    method RunResetPhase(o: ResetOracle) returns (ended: Ended)
      requires Answers(o)
      modifies this`cloud, this`started, this`exitCode, this`trace
      ensures (State(), ended) == Spec.RunReset(setup, old(State()), o)
    {
      if !o.verdict.Fine? {
        return Awaited(o.verdict);
      }
      var records := o.records;
      var needsRedeploy := exists i :: 0 <= i < |records| && records[i].needsRedeploy;
      var recreated := Returns;
      if needsRedeploy {
        recreated := RedeployWithRetry(o);
        if recreated.Returns? {
          recreated := RunSnapshot(o.snapshot);
        }
        if recreated.Unwinds? {
          return Unwinds;
        }
      }
      records := Judged(records, recreated.Returns?);
      var clearError, cut := ApplyContaminationTags(records, o);
      if cut {
        return Unwinds;
      }
      if exists i :: 0 <= i < |records| && !records[i].success {
        return Raises(ResetFailed);
      }
      return if clearError.Some? then Raises(clearError.value) else Returns;
    }

    method DeleteBaseline(a: Account, stage: Stage, works: bool)
      modifies this`cloud
      ensures cloud == Deleted(setup, old(cloud), a, stage, works)
    {
      if (setup.scenario, a, stage) in cloud.baselines && works {
        Note(BaselineDeleted(setup.scenario, a, stage));
        cloud := cloud.(baselines := cloud.baselines - {(setup.scenario, a, stage)});
      }
    }

    /** Store the results, and tell whether any account is not clean. */
    method CollectFailures(records: seq<CleanupRecord>) returns (dirty: bool)
      modifies this`cloud
      ensures cloud == Reporting(setup, old(cloud), records)
      ensures dirty <==> !AllClean(records)
    {
      dirty := false;
      for n := 0 to |records|
        invariant cloud == Reporting(setup, old(cloud), records[..n])
        invariant dirty <==> !AllClean(records[..n])
      {
        assert records[..n + 1][..n] == records[..n];
        var r := records[n];
        var clean := !r.error && r.summary.CleanSummary?;
        Note(CleanupReported(setup.scenario, r.account, clean));
        if !clean {
          dirty := true;
        }
      }
      assert records[..|records|] == records;
    }

    method RunCleanupPhase(scriptFailed: bool, o: CleanupOracle) returns (ended: Ended)
      requires Covers(setup, o)
      modifies this`cloud
      ensures (cloud, ended) == Spec.RunCleanup(setup, old(cloud), scriptFailed, o)
    {
      if !o.verdict.Fine? {
        return Awaited(o.verdict);
      }
      var dirty := CollectFailures(o.records);
      if dirty {
        return Raises(CleanupFailed);
      }
      if scriptFailed {
        return Returns;
      }
      Note(CleanupJudged(setup.scenario, setup.accounts));
      ghost var judged := cloud;
      for n := 0 to |o.targets|
        invariant cloud == DeletedAll(setup, judged, n, o)
      {
        DeleteBaseline(o.targets[n], PreSetup, o.preDeleted[n]);
        DeleteBaseline(o.targets[n], PostSetup, o.postDeleted[n]);
      }
      ghost var emptied := cloud;
      for i := 0 to |o.targets|
        invariant ClearAll(cloud, i, o) == ClearAll(emptied, 0, o)
      {
        var call := o.clearing[i];
        if call.landed || call.verdict.Fine? {
          Note(Unflagged(o.targets[i]));
          cloud := cloud.(flagged := cloud.flagged - {o.targets[i]});
        }
        if call.verdict.Cancels? {
          return Unwinds;
        }
      }
      return Returns;
    }

    method RunVerifyPhase(o: VerifyOracle) returns (ended: Ended)
      ensures ended == Spec.RunVerify(o)
    {
      if !o.verdict.Fine? {
        return Awaited(o.verdict);
      }
      if exists i :: 0 <= i < |o.records| && !o.records[i].passed {
        return Raises(VerifyFailed);
      }
      return Returns;
    }

    method RunResourceManagement(phase: Phase, scriptFailed: bool, o: RunOracle) returns (ended: Ended)
      requires ValidOracle(setup, o)
      modifies this`cloud, this`started, this`exitCode, this`trace
      ensures (State(), ended) == Spec.ManagementPart(setup, old(State()), phase, scriptFailed, o)
    {
      match phase
      case Deploy =>
        if scriptFailed {
          return Returns;
        }
        ended := RunSnapshot(o.snapshot);
      case Verify => ended := RunVerifyPhase(o.verify);
      case Reset => ended := RunResetPhase(o.reset);
      case Cleanup => ended := RunCleanupPhase(scriptFailed, o.cleanup);
    }

    method RunBody(phase: Phase, o: RunOracle) returns (ended: Ended)
      requires ValidOracle(setup, o)
      modifies this`cloud, this`started, this`exitCode, this`trace
      ensures (State(), ended) == Spec.Body(setup, old(State()), phase, o)
    {
      trace := trace + [Start];
      if o.startHook.Cancels? {
        return Unwinds;
      }
      // The sweep before cleanup.sh is best-effort: only a cancellation gets past it.
      if phase.Cleanup? && o.sweep.Cancels? {
        return Unwinds;
      }
      var script := Returns;
      if phase in setup.scripts {
        script := RunPhaseInContainer(phase, true, o.container);
        if script.Unwinds? {
          return Unwinds;
        }
      }
      ended := RunResourceManagement(phase, script.Raises?, o);
      if ended.Returns? {
        ended := script;
      }
    }

    /** Record what the body ended with, then the finally block: stop the container, persist, emit END. */
    method CloseRun(ended: Ended, o: RunOracle)
      modifies this`trace, this`exception
      ensures trace == old(trace) + (if ended.Unwinds? then [CancelEvent] else []) + [StopContainer, PersistResult, EndEvent]
      ensures exception == Recorded(Recorded(old(exception), ended), Awaited(o.stop))
    {
      match ended {
        case Returns =>
        case Raises(error) => RecordException(error);
        case Unwinds =>
          RecordException(Cancelled);
          trace := trace + [CancelEvent];
      }
      trace := trace + [StopContainer];
      match o.stop {
        case Fine =>
        case Fails(message) => RecordException(Other(message));
        case Cancels => RecordException(Cancelled);
      }
      trace := trace + [PersistResult];
      trace := trace + [EndEvent];
    }

    /**
     Run one phase on a fresh trial. The cloud it leaves is sound again, and the report is the
     one the specification gives, so every theorem about reports holds of it.
     */
    method Run(phase: Phase, o: RunOracle) returns (escapes: bool)
      requires ValidSetup(setup) && ValidOracle(setup, o)
      requires State() == RunState(cloud, false, None, []) && exception.None?
      requires CloudInv(cloud)
      modifies this
      ensures Report(cloud, exception, exitCode, trace, escapes) == Spec.Run(setup, old(cloud), phase, o)
      ensures CloudInv(cloud)
    {
      ScenarioTheorems.RunKeepsInv(setup, cloud, phase, o);
      Note(TrialBegan(setup.scenario, phase));
      var ended := RunBody(phase, o);
      CloseRun(ended, o);
      escapes := ended.Unwinds? || o.endHook.Cancels?;
    }
  }
}
