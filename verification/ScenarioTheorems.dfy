/**
 What one scenario trial guarantees for every combination of oracle outcomes: the shape of its
 lifecycle, which exception it records, what its success means, and that it keeps the cloud's
 history sound.
 */
module ScenarioTheorems {
  import opened Wrappers
  import opened Clouds
  import opened ScenarioTrials

  // ---- soundness is kept -----------------------------------------------------------------------

  /** What the gates of a deploy establish about the cloud its script is about to run on. */
  ghost predicate Cleared(s: Setup, c: Cloud, checkFlag: bool) {
    && (checkFlag ==> s.accounts * c.flagged == {})
    && MissingInit(s, c) == {}
    && (s.accounts != {} ==> c.history != [] && c.history[|c.history| - 1] == GuardrailApplied(s.scenario, s.accounts))
  }

  lemma GuardedKeepsInv(s: Setup, c: Cloud)
    requires CloudInv(c)
    ensures var guarded := Noting(c, GuardrailApplied(s.scenario, s.accounts));
      && CloudInv(guarded) && MissingInit(s, guarded) == MissingInit(s, c)
      && (InReset(c.history, s.scenario) ==> InReset(guarded.history, s.scenario))
  {
    var f := GuardrailApplied(s.scenario, s.accounts);
    NotingInTrial(c.history, f, s.scenario);
    NotingKeepsInv(c, f, Noting(c, f));
  }

  /** The gates leave the cloud alone but for the guardrail; passing them means what they check. */
  lemma GatesLeave(s: Setup, st: RunState, checkFlag: bool, o: ContainerOracle)
    requires ValidSetup(s)
    ensures var (after, ended) := DeployGates(s, st, checkFlag, o);
      && (after.cloud == st.cloud || after.cloud == Noting(st.cloud, GuardrailApplied(s.scenario, s.accounts)))
      && (ended.Returns? ==>
            && (checkFlag ==> s.accounts * st.cloud.flagged == {}) && MissingInit(s, st.cloud) == {}
            && (s.accounts != {} ==> after.cloud == Noting(st.cloud, GuardrailApplied(s.scenario, s.accounts))))
  {
  }

  lemma GatesKeepInv(s: Setup, st: RunState, checkFlag: bool, o: ContainerOracle)
    requires ValidSetup(s) && CloudInv(st.cloud)
    ensures var (after, ended) := DeployGates(s, st, checkFlag, o);
      && CloudInv(after.cloud) && (ended.Returns? ==> Cleared(s, after.cloud, checkFlag))
      && (InReset(st.cloud.history, s.scenario) ==> InReset(after.cloud.history, s.scenario))
  {
    GatesLeave(s, st, checkFlag, o);
    GuardedKeepsInv(s, st.cloud);
  }

  lemma DeployMayBegin(s: Setup, c: Cloud, recovery: bool)
    requires CloudInv(c) && Cleared(s, c, !recovery)
    requires recovery ==> InReset(c.history, s.scenario)
    ensures Allowed(c.history, DeployBegan(s.scenario, s.accounts, recovery))
  {
    forall a | a in s.accounts
      ensures InitHeld(c.history, s.scenario, a)
    {
      assert a !in MissingInit(s, c);
    }
    if !recovery {
      forall a | a in s.accounts
        ensures !Blocked(c.history, a)
      {
        assert a !in s.accounts * c.flagged;
      }
    }
  }

  lemma ScriptMayBegin(s: Setup, c: Cloud, recovery: bool)
    requires CloudInv(c) && Cleared(s, c, !recovery)
    requires recovery ==> InReset(c.history, s.scenario)
    ensures var began := Noting(c, DeployBegan(s.scenario, s.accounts, recovery));
      CloudInv(began) && (InReset(c.history, s.scenario) ==> InReset(began.history, s.scenario))
  {
    var f := DeployBegan(s.scenario, s.accounts, recovery);
    DeployMayBegin(s, c, recovery);
    forall a | StartsOn(f, a)
      ensures a !in c.flagged
    {
      assert a !in s.accounts * c.flagged;
    }
    NotingKeepsInv(c, f, Noting(c, f));
    NotingInTrial(c.history, f, s.scenario);
  }

  lemma ScriptMayEnd(s: Setup, c: Cloud, code: int)
    requires CloudInv(c)
    ensures var ended := Noting(c, DeployEnded(s.scenario, code));
      && CloudInv(ended) && (InReset(c.history, s.scenario) ==> InReset(ended.history, s.scenario))
      && (code == 0 ==> JustDeployed(ended.history, s.scenario))
  {
    var g := DeployEnded(s.scenario, code);
    NotingKeepsInv(c, g, Noting(c, g));
    NotingInTrial(c.history, g, s.scenario);
    NotingDeployed(c.history, s.scenario);
  }

  /** The cloud a deploy.sh that began on it leaves, however it ends. */
  function Deployed(s: Setup, c: Cloud, recovery: bool, script: ScriptVerdict): Cloud {
    var began := Noting(c, DeployBegan(s.scenario, s.accounts, recovery));
    if script.Exits? then Noting(began, DeployEnded(s.scenario, script.code)) else began
  }

  lemma DeployedKeepsInv(s: Setup, c: Cloud, recovery: bool, script: ScriptVerdict)
    requires CloudInv(c) && Cleared(s, c, !recovery) && (recovery ==> InReset(c.history, s.scenario))
    ensures var after := Deployed(s, c, recovery, script);
      && CloudInv(after)
      && (InReset(c.history, s.scenario) ==> InReset(after.history, s.scenario))
      && (script == Exits(0) ==> JustDeployed(after.history, s.scenario))
  {
    ScriptMayBegin(s, c, recovery);
    if script.Exits? {
      ScriptMayEnd(s, Noting(c, DeployBegan(s.scenario, s.accounts, recovery)), script.code);
    }
  }

  lemma ExecuteLeaves(s: Setup, st: RunState, phase: Phase, recovery: bool, o: ContainerOracle)
    ensures var (after, ended) := Execute(s, st, phase, recovery, o);
      && after.cloud == (if phase.Deploy? then Deployed(s, st.cloud, recovery, o.script) else st.cloud)
      && (ended.Returns? ==> after.exitCode == Some(0) && o.script == Exits(0))
  {
  }

  lemma ExecuteKeepsInv(s: Setup, st: RunState, phase: Phase, recovery: bool, o: ContainerOracle)
    requires CloudInv(st.cloud) && (phase.Deploy? ==> Cleared(s, st.cloud, !recovery))
    requires recovery ==> InReset(st.cloud.history, s.scenario)
    ensures var (after, ended) := Execute(s, st, phase, recovery, o);
      && CloudInv(after.cloud)
      && (InReset(st.cloud.history, s.scenario) ==> InReset(after.cloud.history, s.scenario))
      && (phase.Deploy? && ended.Returns? ==> JustDeployed(after.cloud.history, s.scenario))
      && (ended.Returns? ==> after.exitCode == Some(0))
  {
    ExecuteLeaves(s, st, phase, recovery, o);
    if phase.Deploy? {
      DeployedKeepsInv(s, st.cloud, recovery, o.script);
    }
  }

  lemma ContainerKeepsInv(s: Setup, st: RunState, phase: Phase, checkFlag: bool, o: ContainerOracle)
    requires ValidSetup(s) && CloudInv(st.cloud)
    requires checkFlag || InReset(st.cloud.history, s.scenario)
    ensures var (after, ended) := PhaseInContainer(s, st, phase, checkFlag, o);
      && CloudInv(after.cloud)
      && (InReset(st.cloud.history, s.scenario) ==> InReset(after.cloud.history, s.scenario))
      && (phase.Deploy? && ended.Returns? ==> JustDeployed(after.cloud.history, s.scenario))
      && (ended.Returns? ==> after.exitCode == Some(0))
  {
    var hooked := Acting(st, EnvironmentStart).(started := true);
    GatesKeepInv(s, hooked, checkFlag, o);
    var (gated, refusal) := if phase.Deploy? then DeployGates(s, hooked, checkFlag, o) else (hooked, Returns);
    if refusal.Returns? {
      ExecuteKeepsInv(s, Acting(gated, PhaseStart), phase, !checkFlag, o);
    }
  }

  lemma {:induction false} CaptureKeepsInv(s: Setup, c: Cloud, captures: seq<Capture>)
    requires CloudInv(c) && JustDeployed(c.history, s.scenario)
    ensures CloudInv(Captured(s, c, captures)) && JustDeployed(Captured(s, c, captures).history, s.scenario)
  {
    if captures != [] {
      CaptureKeepsInv(s, c, captures[..|captures| - 1]);
      var before, last := Captured(s, c, captures[..|captures| - 1]), captures[|captures| - 1];
      NotingKeepsInv(before, SnapshotTaken(s.scenario, last.account),
                     Noting(before, SnapshotTaken(s.scenario, last.account))
                       .(baselines := before.baselines + {(s.scenario, last.account, PostSetup)}));
      NotingUnfolds(before.history, SnapshotTaken(s.scenario, last.account));
    }
  }

  lemma {:induction false} RedeployKeepsInv(s: Setup, st: RunState, attempt: nat, o: ResetOracle)
    requires ValidSetup(s) && CloudInv(st.cloud) && Answers(o) && 1 <= attempt <= REDEPLOY_MAX_ATTEMPTS
    requires InReset(st.cloud.history, s.scenario)
    ensures var (after, ended) := Redeploy(s, st, attempt, o);
      CloudInv(after.cloud) && (ended.Returns? ==> JustDeployed(after.cloud.history, s.scenario) && after.exitCode == Some(0))
    decreases REDEPLOY_MAX_ATTEMPTS - attempt
  {
    ContainerKeepsInv(s, st, Deploy, false, o.deploys[attempt - 1]);
    var (after, ended) := PhaseInContainer(s, st, Deploy, false, o.deploys[attempt - 1]);
    if ended.Raises? && attempt < REDEPLOY_MAX_ATTEMPTS && o.sleeps[attempt - 1].Fine? {
      RedeployKeepsInv(s, after, attempt + 1, o);
    }
  }

  lemma TaggedKeepsInv(c: Cloud, a: Account, success: bool, call: TagCall)
    requires CloudInv(c)
    ensures CloudInv(Tagged(c, a, success, call))
  {
    var f := ResetJudged(a, success);
    var judged := Noting(c, f);
    NotingKeepsInv(c, f, judged);
    NotingUnfolds(c.history, f);
    if Lands(call) {
      if success {
        NotingRestored(c.history, f, a);
        NotingKeepsInv(judged, Unflagged(a), Noting(judged, Unflagged(a)).(flagged := judged.flagged - {a}));
      } else {
        NotingKeepsInv(judged, Flagged(a), Noting(judged, Flagged(a)).(flagged := judged.flagged + {a}));
      }
    }
  }

  lemma {:induction false} TagAllKeepsInv(c: Cloud, records: seq<ResetRecord>, i: nat, clearError: Option<Error>, o: ResetOracle)
    requires i <= |records| == |o.tagging| && CloudInv(c)
    ensures CloudInv(TagAll(c, records, i, clearError, o).0)
    decreases |records| - i
  {
    if i < |records| {
      if records[i].account.None? {
        TagAllKeepsInv(c, records, i + 1, clearError, o);
      } else {
        var call, a := o.tagging[i], records[i].account.value;
        TaggedKeepsInv(c, a, records[i].success, call);
        if !call.verdict.Cancels? {
          TagAllKeepsInv(Tagged(c, a, records[i].success, call), records, i + 1,
                         if records[i].success && call.verdict.Fails? then Some(Other(call.verdict.message)) else clearError, o);
        }
      }
    }
  }

  lemma ResetKeepsInv(s: Setup, st: RunState, o: ResetOracle)
    requires ValidSetup(s) && CloudInv(st.cloud) && Answers(o) && InReset(st.cloud.history, s.scenario)
    ensures CloudInv(RunReset(s, st, o).0.cloud)
  {
    if o.verdict.Fine? {
      var (after, recreated) := if NeedsRedeploy(o.records) then Recreate(s, st, o) else (st, Returns);
      assert CloudInv(after.cloud) by {
        RedeployKeepsInv(s, st, 1, o);
        var (deployed, ended) := Redeploy(s, st, 1, o);
        if ended.Returns? {
          CaptureKeepsInv(s, deployed.cloud, o.snapshot.captures);
        }
      }
      if !recreated.Unwinds? {
        TagAllKeepsInv(after.cloud, Judged(o.records, recreated.Returns?), 0, None, o);
      }
    }
  }

  /** Deleting one account's baselines stays inside the cleanup's verdict. */
  lemma DeletedKeepsInv(s: Setup, c: Cloud, a: Account, stage: Stage, works: bool)
    requires CloudInv(c) && forall b :: b in s.accounts ==> JustCleaned(c.history, s.scenario, b)
    requires a in s.accounts
    ensures CloudInv(Deleted(s, c, a, stage, works))
    ensures forall b :: b in s.accounts ==> JustCleaned(Deleted(s, c, a, stage, works).history, s.scenario, b)
    ensures forall b :: JustRestored(c.history, b) ==> JustRestored(Deleted(s, c, a, stage, works).history, b)
  {
    if (s.scenario, a, stage) in c.baselines && works {
      var f := BaselineDeleted(s.scenario, a, stage);
      NotingKeepsInv(c, f, Noting(c, f).(baselines := c.baselines - {(s.scenario, a, stage)}));
      NotingUnfolds(c.history, f);
      forall b | JustRestored(c.history, b)
        ensures JustRestored(c.history + [f], b)
      {
        NotingRestored(c.history, f, b);
      }
    }
  }

  lemma {:induction false} DeletedAllKeepsInv(s: Setup, c: Cloud, n: nat, o: CleanupOracle)
    requires Covers(s, o) && n <= |o.targets| && CloudInv(c)
    requires forall b :: b in s.accounts ==> JustCleaned(c.history, s.scenario, b) && JustRestored(c.history, b)
    ensures CloudInv(DeletedAll(s, c, n, o))
    ensures forall b :: b in s.accounts ==>
      JustCleaned(DeletedAll(s, c, n, o).history, s.scenario, b) && JustRestored(DeletedAll(s, c, n, o).history, b)
  {
    if n > 0 {
      DeletedAllKeepsInv(s, c, n - 1, o);
      var before, a := DeletedAll(s, c, n - 1, o), o.targets[n - 1];
      DeletedKeepsInv(s, before, a, PreSetup, o.preDeleted[n - 1]);
      DeletedKeepsInv(s, Deleted(s, before, a, PreSetup, o.preDeleted[n - 1]), a, PostSetup, o.postDeleted[n - 1]);
    }
  }

  lemma ClearedKeepsInv(s: Setup, c: Cloud, a: Account, call: TagCall)
    requires CloudInv(c) && a in s.accounts && forall b :: b in s.accounts ==> JustRestored(c.history, b)
    ensures CloudInv(ScenarioTrials.Cleared(c, a, call))
    ensures forall b :: b in s.accounts ==> JustRestored(ScenarioTrials.Cleared(c, a, call).history, b)
  {
    if Lands(call) {
      var f := Unflagged(a);
      NotingKeepsInv(c, f, Noting(c, f).(flagged := c.flagged - {a}));
      forall b | b in s.accounts
        ensures JustRestored(c.history + [f], b)
      {
        NotingRestored(c.history, f, b);
      }
    }
  }

  lemma {:induction false} ClearAllKeepsInv(s: Setup, c: Cloud, i: nat, o: CleanupOracle)
    requires Covers(s, o) && i <= |o.targets| && CloudInv(c)
    requires forall b :: b in s.accounts ==> JustRestored(c.history, b)
    ensures CloudInv(ClearAll(c, i, o).0)
    decreases |o.targets| - i
  {
    if i < |o.targets| {
      ClearedKeepsInv(s, c, o.targets[i], o.clearing[i]);
      if !o.clearing[i].verdict.Cancels? {
        ClearAllKeepsInv(s, ScenarioTrials.Cleared(c, o.targets[i], o.clearing[i]), i + 1, o);
      }
    }
  }

  lemma {:induction false} ReportingKeepsInv(s: Setup, c: Cloud, records: seq<CleanupRecord>)
    requires CloudInv(c)
    ensures CloudInv(Reporting(s, c, records))
  {
    if records != [] {
      var before, last := Reporting(s, c, records[..|records| - 1]), records[|records| - 1];
      ReportingKeepsInv(s, c, records[..|records| - 1]);
      var f := CleanupReported(s.scenario, last.account, IsClean(last));
      NotingKeepsInv(before, f, Noting(before, f));
    }
  }

  /** When every record is clean, each one stands reported clean at the end. */
  lemma {:induction false} ReportingReports(s: Setup, c: Cloud, records: seq<CleanupRecord>, i: nat)
    requires AllClean(records) && i < |records|
    ensures ReportedClean(Reporting(s, c, records).history, s.scenario, records[i].account)
  {
    var before, last := Reporting(s, c, records[..|records| - 1]), records[|records| - 1];
    NotingReported(before.history, CleanupReported(s.scenario, last.account, true), s.scenario, records[i].account);
    if i < |records| - 1 {
      ReportingReports(s, c, records[..|records| - 1], i);
    }
  }

  lemma OwnRecord(s: Setup, o: CleanupOracle, a: Account) returns (i: nat)
    requires Covers(s, o) && o.verdict.Fine? && a in s.accounts
    ensures i < |o.records| && o.records[i].account == a
  {
    var accounts := CleanupAccounts(o.records);
    assert a in accounts;
    i :| 0 <= i < |accounts| && accounts[i] == a;
  }

  lemma VerdictMayBeJudged(s: Setup, c: Cloud, o: CleanupOracle)
    requires Covers(s, o) && o.verdict.Fine? && AllClean(o.records)
    ensures Allowed(Reporting(s, c, o.records).history, CleanupJudged(s.scenario, s.accounts))
  {
    forall a | a in s.accounts
      ensures ReportedClean(Reporting(s, c, o.records).history, s.scenario, a)
    {
      var i := OwnRecord(s, o, a);
      ReportingReports(s, c, o.records, i);
    }
  }

  lemma JudgedIsRestored(s: Setup, c: Cloud)
    ensures var h := c.history + [CleanupJudged(s.scenario, s.accounts)];
      forall b :: b in s.accounts ==> JustCleaned(h, s.scenario, b) && JustRestored(h, b)
  {
    var f := CleanupJudged(s.scenario, s.accounts);
    NotingUnfolds(c.history, f);
    forall b | b in s.accounts
      ensures JustRestored(c.history + [f], b)
    {
      NotingRestored(c.history, f, b);
    }
  }

  lemma CleanupKeepsInv(s: Setup, c: Cloud, scriptFailed: bool, o: CleanupOracle)
    requires Covers(s, o) && CloudInv(c)
    ensures CloudInv(RunCleanup(s, c, scriptFailed, o).0)
  {
    if o.verdict.Fine? {
      var reported, f := Reporting(s, c, o.records), CleanupJudged(s.scenario, s.accounts);
      ReportingKeepsInv(s, c, o.records);
      if AllClean(o.records) {
        VerdictMayBeJudged(s, c, o);
        NotingKeepsInv(reported, f, Noting(reported, f));
        JudgedIsRestored(s, reported);
        DeletedAllKeepsInv(s, Noting(reported, f), |o.targets|, o);
        ClearAllKeepsInv(s, DeletedAll(s, Noting(reported, f), |o.targets|, o), 0, o);
      }
    }
  }

  lemma BodyKeepsInv(s: Setup, st: RunState, phase: Phase, o: RunOracle)
    requires ValidSetup(s) && ValidOracle(s, o) && CloudInv(st.cloud)
    requires phase.Reset? ==> InReset(st.cloud.history, s.scenario)
    ensures CloudInv(Body(s, st, phase, o).0.cloud)
  {
    var begun := Acting(st, Start);
    ContainerKeepsInv(s, begun, phase, true, o.container);
    var (scripted, script) := ScriptPart(s, begun, phase, o);
    if !script.Unwinds? {
      match phase
      case Deploy =>
        if script.Returns? {
          CaptureKeepsInv(s, scripted.cloud, o.snapshot.captures);
        }
      case Verify =>
      case Reset => ResetKeepsInv(s, scripted, o.reset);
      case Cleanup => CleanupKeepsInv(s, scripted.cloud, script.Raises?, o.cleanup);
    }
  }

  /** Whatever its oracles answer, a run leaves a sound history and a consistent cloud. */
  lemma RunKeepsInv(s: Setup, c: Cloud, phase: Phase, o: RunOracle)
    requires ValidSetup(s) && ValidOracle(s, o) && CloudInv(c)
    ensures CloudInv(Run(s, c, phase, o).cloud)
  {
    NotingKeepsInv(c, TrialBegan(s.scenario, phase), Noting(c, TrialBegan(s.scenario, phase)));
    NotingInTrial(c.history, TrialBegan(s.scenario, phase), s.scenario);
    BodyKeepsInv(s, Begun(s, c, phase), phase, o);
  }

  // ---- the lifecycle -----------------------------------------------------------------------------

  /** Actions that belong to the body of a run. */
  predicate BodyActions(trace: seq<Action>) {
    forall i :: 0 <= i < |trace| ==> trace[i].Start? || trace[i].EnvironmentStart? || trace[i].PhaseStart?
  }

  lemma ContainerActs(s: Setup, st: RunState, phase: Phase, checkFlag: bool, o: ContainerOracle)
    requires BodyActions(st.trace) && st.trace != [] && st.trace[0] == Start
    ensures var after := PhaseInContainer(s, st, phase, checkFlag, o).0;
      BodyActions(after.trace) && after.trace != [] && after.trace[0] == Start
  {
  }

  lemma {:induction false} RedeployActs(s: Setup, st: RunState, attempt: nat, o: ResetOracle)
    requires Answers(o) && 1 <= attempt <= REDEPLOY_MAX_ATTEMPTS
    requires BodyActions(st.trace) && st.trace != [] && st.trace[0] == Start
    ensures var after := Redeploy(s, st, attempt, o).0;
      BodyActions(after.trace) && after.trace != [] && after.trace[0] == Start
    decreases REDEPLOY_MAX_ATTEMPTS - attempt
  {
    ContainerActs(s, st, Deploy, false, o.deploys[attempt - 1]);
    var (after, ended) := PhaseInContainer(s, st, Deploy, false, o.deploys[attempt - 1]);
    if ended.Raises? && attempt < REDEPLOY_MAX_ATTEMPTS && o.sleeps[attempt - 1].Fine? {
      RedeployActs(s, after, attempt + 1, o);
    }
  }

  lemma BodyActs(s: Setup, c: Cloud, phase: Phase, o: RunOracle)
    requires ValidOracle(s, o)
    ensures var trace := Body(s, Begun(s, c, phase), phase, o).0.trace;
      BodyActions(trace) && trace != [] && trace[0] == Start
  {
    var begun := Acting(Begun(s, c, phase), Start);
    ContainerActs(s, begun, phase, true, o.container);
    RedeployActs(s, ScriptPart(s, begun, phase, o).0, 1, o.reset);
  }

  function Occurrences(trace: seq<Action>, a: Action): nat {
    if trace == [] then 0 else Occurrences(trace[..|trace| - 1], a) + (if trace[|trace| - 1] == a then 1 else 0)
  }

  lemma {:induction false} BodyHasNoTeardown(trace: seq<Action>, a: Action)
    requires BodyActions(trace) && (a.CancelEvent? || a.StopContainer? || a.PersistResult? || a.EndEvent?)
    ensures Occurrences(trace, a) == 0
  {
    if trace != [] {
      BodyHasNoTeardown(trace[..|trace| - 1], a);
    }
  }

  lemma OccurrencesOfLast(trace: seq<Action>, last: Action, a: Action)
    ensures Occurrences(trace + [last], a) == Occurrences(trace, a) + (if last == a then 1 else 0)
  {
    assert (trace + [last])[..|trace|] == trace;
  }

  lemma TeardownOnce(body: seq<Action>, cancelled: bool, a: Action)
    requires BodyActions(body) && (a.CancelEvent? || a.StopContainer? || a.PersistResult? || a.EndEvent?)
    ensures Occurrences(body + (if cancelled then [CancelEvent] else []) + [StopContainer, PersistResult, EndEvent], a)
         == (if a.CancelEvent? && !cancelled then 0 else 1)
  {
    var t0 := body + (if cancelled then [CancelEvent] else []);
    assert body + [] == body;
    assert t0 + [StopContainer, PersistResult, EndEvent] == ((t0 + [StopContainer]) + [PersistResult]) + [EndEvent];
    BodyHasNoTeardown(body, a);
    OccurrencesOfLast(body, CancelEvent, a);
    OccurrencesOfLast(t0, StopContainer, a);
    OccurrencesOfLast(t0 + [StopContainer], PersistResult, a);
    OccurrencesOfLast((t0 + [StopContainer]) + [PersistResult], EndEvent, a);
  }

  /**
   Every run starts with START, stops the container once, persists its result once and emits END
   once, in that order and as its last three acts; CANCEL comes at most once, just before them,
   and exactly when the body was cancelled - in which case the cancellation reaches the caller.
   */
  lemma LifecycleCloses(s: Setup, c: Cloud, phase: Phase, o: RunOracle)
    requires ValidOracle(s, o)
    ensures var r := Run(s, c, phase, o); var n := |r.trace|;
      var cancelled := Body(s, Begun(s, c, phase), phase, o).1.Unwinds?;
      && n >= 4 && r.trace[0] == Start
      && r.trace[n - 3..] == [StopContainer, PersistResult, EndEvent]
      && Occurrences(r.trace, StopContainer) == Occurrences(r.trace, PersistResult) == Occurrences(r.trace, EndEvent) == 1
      && Occurrences(r.trace, CancelEvent) == (if cancelled then 1 else 0)
      && (cancelled ==> r.trace[n - 4] == CancelEvent && r.escapes && r.exception == Some(Cancelled))
  {
    BodyActs(s, c, phase, o);
    var (st, body) := Body(s, Begun(s, c, phase), phase, o);
    TeardownOnce(st.trace, body.Unwinds?, CancelEvent);
    TeardownOnce(st.trace, body.Unwinds?, StopContainer);
    TeardownOnce(st.trace, body.Unwinds?, PersistResult);
    TeardownOnce(st.trace, body.Unwinds?, EndEvent);
  }

  // ---- which exception is recorded ------------------------------------------------------------------

  /** The errors one run met, each None if that part came back. */
  datatype Met = Met(bodyCancel: bool, management: Option<Error>, script: Option<Error>, stop: Option<Error>)

  function ErrorOf(e: Ended): Option<Error> {
    if e.Raises? then Some(e.error) else None
  }

  /** What each part of the run, taken by itself, ended with. */
  function Meets(s: Setup, c: Cloud, phase: Phase, o: RunOracle): Met
    requires ValidOracle(s, o)
  {
    var begun := Acting(Begun(s, c, phase), Start);
    var stop := match o.stop case Fine => None case Fails(message) => Some(Other(message)) case Cancels => Some(Cancelled);
    if o.startHook.Cancels? || (phase.Cleanup? && o.sweep.Cancels?) then Met(true, None, None, stop) else
      var (scripted, script) := ScriptPart(s, begun, phase, o);
      if script.Unwinds? then Met(true, None, None, stop) else
        var (_, management) := ManagementPart(s, scripted, phase, script.Raises?, o);
        Met(management.Unwinds?, ErrorOf(management), ErrorOf(script), stop)
  }

  /**
   The recorded exception: a cancelled body before anything else, then the resource-management
   error, then the script error, then the container-stop error - which includes a cancellation
   that lands in the stop, and is then recorded but never reaches the caller.
   */
  lemma RecordedByPrecedence(s: Setup, c: Cloud, phase: Phase, o: RunOracle)
    requires ValidOracle(s, o)
    ensures var r, met := Run(s, c, phase, o), Meets(s, c, phase, o);
      && r.exception == (if met.bodyCancel then Some(Cancelled)
                         else if met.management.Some? then met.management
                         else if met.script.Some? then met.script
                         else met.stop)
      && (r.escapes <==> met.bodyCancel || o.endHook.Cancels?)
  {
  }

  // ---- what success means -----------------------------------------------------------------------------

  lemma SuccessIsCleanBody(s: Setup, c: Cloud, phase: Phase, o: RunOracle)
    requires ValidOracle(s, o) && Succeeded(Run(s, c, phase, o))
    ensures !o.startHook.Cancels? && o.stop.Fine?
    ensures var begun := Acting(Begun(s, c, phase), Start);
      var (scripted, script) := ScriptPart(s, begun, phase, o);
      script.Returns? && ManagementPart(s, scripted, phase, false, o).1.Returns?
  {
  }

  /** A record of the reset still fails after the redeploy verdict. */
  predicate StillFailing(s: Setup, st: RunState, o: ResetOracle, i: nat)
    requires Answers(o) && i < |o.records|
  {
    !o.records[i].success || (o.records[i].needsRedeploy && !Recreate(s, st, o).1.Returns?)
  }

  /** What the phase's own manager reported for the account, and judged once the phase was over. */
  predicate GatePassed(s: Setup, st: RunState, phase: Phase, o: RunOracle, a: Account)
    requires ValidOracle(s, o)
  {
    match phase
    case Deploy => Capture(a, true) in o.snapshot.captures
    case Verify => VerifyRecord(a, true) in o.verify.records
    case Reset =>
      exists i :: 0 <= i < |o.reset.records| && o.reset.records[i].account == Some(a) && !StillFailing(s, st, o.reset, i)
    case Cleanup => CleanupRecord(a, false, CleanSummary) in o.cleanup.records
  }

  lemma ResetGatePassed(s: Setup, st: RunState, o: RunOracle, a: Account)
    requires ValidOracle(s, o) && a in s.accounts && RunReset(s, st, o.reset).1.Returns?
    ensures GatePassed(s, st, Reset, o, a)
  {
    var r := o.reset;
    var records := Judged(r.records, if NeedsRedeploy(r.records) then Recreate(s, st, r).1.Returns? else true);
    assert AllReset(records);
    assert a in ResetAccounts(r.records);
    var i :| 0 <= i < |r.records| && ResetAccounts(r.records)[i] == a;
    assert records[i].success;
  }

  lemma OtherGatesPassed(s: Setup, st: RunState, phase: Phase, o: RunOracle, a: Account)
    requires ValidOracle(s, o) && a in s.accounts && !phase.Reset?
    requires ManagementPart(s, st, phase, false, o).1.Returns?
    ensures GatePassed(s, st, phase, o, a)
  {
    match phase
    case Deploy =>
      assert a in CaptureAccounts(o.snapshot.captures);
      var i :| 0 <= i < |o.snapshot.captures| && CaptureAccounts(o.snapshot.captures)[i] == a;
      assert o.snapshot.captures[i] == Capture(a, true);
    case Verify =>
      assert a in VerifyAccounts(o.verify.records);
      var i :| 0 <= i < |o.verify.records| && VerifyAccounts(o.verify.records)[i] == a;
      assert o.verify.records[i] == VerifyRecord(a, true);
    case Cleanup =>
      var i := OwnRecord(s, o.cleanup, a);
      assert IsClean(o.cleanup.records[i]);
    case Reset =>
  }

  /**
   A successful trial implies that its script, if any, exited 0 and that for every mapped account
   the result gating its phase succeeded: snapshot stored, verification passed, reset restored
   (redeploy included), cleanup wholly clean.
   */
  lemma SuccessMeansAllGatesPassed(s: Setup, c: Cloud, phase: Phase, o: RunOracle)
    requires ValidSetup(s) && ValidOracle(s, o) && Succeeded(Run(s, c, phase, o))
    ensures phase in s.scripts ==> o.container.script == Exits(0)
    ensures var st := ScriptPart(s, Acting(Begun(s, c, phase), Start), phase, o).0;
      forall a :: a in s.accounts ==> GatePassed(s, st, phase, o, a)
  {
    SuccessIsCleanBody(s, c, phase, o);
    var st := ScriptPart(s, Acting(Begun(s, c, phase), Start), phase, o).0;
    forall a | a in s.accounts
      ensures GatePassed(s, st, phase, o, a)
    {
      if phase.Reset? {
        ResetGatePassed(s, st, o, a);
      } else {
        OtherGatesPassed(s, st, phase, o, a);
      }
    }
  }

  // ---- what a deploy and a cleanup leave -----------------------------------------------------------

  lemma {:induction false} CapturedBaselines(s: Setup, c: Cloud, captures: seq<Capture>, a: Account)
    ensures (s.scenario, a, PostSetup) in Captured(s, c, captures).baselines
       <==> (s.scenario, a, PostSetup) in c.baselines || Capture(a, true) in captures
  {
    if captures != [] {
      var front, last := captures[..|captures| - 1], captures[|captures| - 1];
      CapturedBaselines(s, c, front, a);
      assert Capture(a, true) in captures <==> Capture(a, true) in front || last == Capture(a, true);
    }
  }

  /** A successful deploy leaves every mapped account a POST_SETUP baseline. */
  lemma SuccessfulDeployBaselines(s: Setup, c: Cloud, o: RunOracle)
    requires ValidSetup(s) && ValidOracle(s, o) && Succeeded(Run(s, c, Deploy, o))
    ensures forall a :: a in s.accounts ==> (s.scenario, a, PostSetup) in Run(s, c, Deploy, o).cloud.baselines
  {
    SuccessMeansAllGatesPassed(s, c, Deploy, o);
    SuccessIsCleanBody(s, c, Deploy, o);
    var scripted := ScriptPart(s, Acting(Begun(s, c, Deploy), Start), Deploy, o).0;
    forall a | a in s.accounts
      ensures (s.scenario, a, PostSetup) in Run(s, c, Deploy, o).cloud.baselines
    {
      assert GatePassed(s, scripted, Deploy, o, a);
      CapturedBaselines(s, scripted.cloud, o.snapshot.captures, a);
    }
  }

  /** Reporting stores nothing and lifts nothing. */
  lemma {:induction false} ReportingTouchesNothing(s: Setup, c: Cloud, records: seq<CleanupRecord>)
    ensures var after := Reporting(s, c, records);
      after.baselines == c.baselines && after.flagged == c.flagged && Extends(c, after)
  {
    if records != [] {
      ReportingTouchesNothing(s, c, records[..|records| - 1]);
    }
  }

  /**
   Cleanup is judged wholly clean exactly when every record is clean and cleanup.sh did not fail;
   short of that it deletes no baseline and lifts no flag.
   */
  lemma CleanupJudgesItsRecords(s: Setup, c: Cloud, scriptFailed: bool, o: CleanupOracle)
    requires Covers(s, o) && o.verdict.Fine?
    ensures var (after, ended) := RunCleanup(s, c, scriptFailed, o); var reported := Reporting(s, c, o.records);
      && (reported.history + [CleanupJudged(s.scenario, s.accounts)] <= after.history <==> AllClean(o.records) && !scriptFailed)
      && (!AllClean(o.records) || scriptFailed ==> after.baselines == c.baselines && after.flagged == c.flagged)
  {
    ReportingTouchesNothing(s, c, o.records);
    if AllClean(o.records) && !scriptFailed {
      var judged := Noting(Reporting(s, c, o.records), CleanupJudged(s.scenario, s.accounts));
      DeletedAllAppends(s, judged, |o.targets|, o);
      ClearAllAppends(DeletedAll(s, judged, |o.targets|, o), 0, o);
    }
  }

  /** The account lost a stored baseline, or its flag. */
  ghost predicate Lost(c: Cloud, after: Cloud, a: Account) {
    || (a in c.flagged && a !in after.flagged)
    || exists scenario, stage :: (scenario, a, stage) in c.baselines && (scenario, a, stage) !in after.baselines
  }

  /** An account that loses a baseline or its flag to a cleanup is a mapped one whose own record was clean. */
  lemma CleanupActsOnCleanRecords(s: Setup, c: Cloud, scriptFailed: bool, o: CleanupOracle, a: Account)
    requires Covers(s, o) && o.verdict.Fine? && Lost(c, RunCleanup(s, c, scriptFailed, o).0, a)
    ensures a in s.accounts && !scriptFailed && CleanupRecord(a, false, CleanSummary) in o.records
  {
    CleanupJudgesItsRecords(s, c, scriptFailed, o);
    ReportingTouchesNothing(s, c, o.records);
    if AllClean(o.records) && !scriptFailed {
      var judged := Noting(Reporting(s, c, o.records), CleanupJudged(s.scenario, s.accounts));
      OthersKeepAll(s, judged, o, a);
      if a in s.accounts {
        var i := OwnRecord(s, o, a);
        assert IsClean(o.records[i]);
      }
    }
  }

  lemma OthersKeepAll(s: Setup, c: Cloud, o: CleanupOracle, a: Account)
    requires Covers(s, o)
    ensures var after := ClearAll(DeletedAll(s, c, |o.targets|, o), 0, o).0;
      a !in s.accounts ==> !Lost(c, after, a)
  {
    if a !in s.accounts {
      OthersKeepBaselines(s, c, |o.targets|, o, a);
      OthersKeepFlags(s, DeletedAll(s, c, |o.targets|, o), 0, o, a);
    }
  }

  lemma {:induction false} OthersKeepBaselines(s: Setup, c: Cloud, n: nat, o: CleanupOracle, a: Account)
    requires Covers(s, o) && n <= |o.targets| && a !in s.accounts
    ensures var after := DeletedAll(s, c, n, o);
      after.flagged == c.flagged
      && forall scenario, stage :: (scenario, a, stage) in c.baselines ==> (scenario, a, stage) in after.baselines
  {
    if n > 0 {
      OthersKeepBaselines(s, c, n - 1, o, a);
      assert o.targets[n - 1] != a;
    }
  }

  lemma {:induction false} OthersKeepFlags(s: Setup, c: Cloud, i: nat, o: CleanupOracle, a: Account)
    requires Covers(s, o) && i <= |o.targets| && a !in s.accounts
    ensures var after := ClearAll(c, i, o).0;
      after.baselines == c.baselines && (a in c.flagged ==> a in after.flagged)
    decreases |o.targets| - i
  {
    if i < |o.targets| {
      assert o.targets[i] != a;
      if !o.clearing[i].verdict.Cancels? {
        OthersKeepFlags(s, ScenarioTrials.Cleared(c, o.targets[i], o.clearing[i]), i + 1, o, a);
      }
    }
  }

  lemma {:induction false} DeletedAllAppends(s: Setup, c: Cloud, n: nat, o: CleanupOracle)
    requires Covers(s, o) && n <= |o.targets|
    ensures Extends(c, DeletedAll(s, c, n, o))
  {
    if n > 0 {
      DeletedAllAppends(s, c, n - 1, o);
    }
  }

  lemma {:induction false} ClearAllAppends(c: Cloud, i: nat, o: CleanupOracle)
    requires i <= |o.targets| == |o.clearing|
    ensures Extends(c, ClearAll(c, i, o).0)
    decreases |o.targets| - i
  {
    if i < |o.targets| && !o.clearing[i].verdict.Cancels? {
      ClearAllAppends(ScenarioTrials.Cleared(c, o.targets[i], o.clearing[i]), i + 1, o);
    }
  }

  // ---- what the tagging loop leaves ------------------------------------------------------------------------

  predicate NamedAt(records: seq<ResetRecord>, k: nat, a: Account) {
    k < |records| && records[k].account == Some(a)
  }

  lemma {:induction false} UnnamedFlagIsKept(c: Cloud, records: seq<ResetRecord>, i: nat, clearError: Option<Error>,
                                             o: ResetOracle, a: Account)
    requires i <= |records| == |o.tagging|
    requires forall k: nat :: i <= k ==> !NamedAt(records, k, a)
    ensures a in TagAll(c, records, i, clearError, o).0.flagged <==> a in c.flagged
    decreases |records| - i
  {
    if i < |records| {
      assert !NamedAt(records, i, a);
      if records[i].account.None? {
        UnnamedFlagIsKept(c, records, i + 1, clearError, o, a);
      } else if !o.tagging[i].verdict.Cancels? {
        UnnamedFlagIsKept(Tagged(c, records[i].account.value, records[i].success, o.tagging[i]), records, i + 1,
                          if records[i].success && o.tagging[i].verdict.Fails?
                          then Some(Other(o.tagging[i].verdict.message)) else clearError, o, a);
      }
    }
  }

  /**
   The flags after an uncancelled tagging loop: an account named by one result is flagged if
   that reset failed and not flagged if it succeeded, provided its tag call took effect;
   otherwise, and for every account no result names, the flag is as it was.
   */
  lemma {:induction false} FlagsFollowTheResults(c: Cloud, records: seq<ResetRecord>, i: nat, clearError: Option<Error>,
                                                 o: ResetOracle, a: Account, k: nat)
    requires i <= k < |records| == |o.tagging| && NamedAt(records, k, a)
    requires forall j: nat :: i <= j && j != k ==> !NamedAt(records, j, a)
    requires !TagAll(c, records, i, clearError, o).2
    ensures a in TagAll(c, records, i, clearError, o).0.flagged
       <==> if Lands(o.tagging[k]) then !records[k].success else a in c.flagged
    decreases |records| - i
  {
    var next := if records[i].success && o.tagging[i].verdict.Fails?
                then Some(Other(o.tagging[i].verdict.message)) else clearError;
    if i == k {
      UnnamedFlagIsKept(Tagged(c, a, records[i].success, o.tagging[i]), records, i + 1, next, o, a);
    } else if records[i].account.None? {
      FlagsFollowTheResults(c, records, i + 1, clearError, o, a, k);
    } else {
      assert !NamedAt(records, i, a);
      FlagsFollowTheResults(Tagged(c, records[i].account.value, records[i].success, o.tagging[i]), records, i + 1, next, o, a, k);
    }
  }

  /**
   After an uncancelled reset, every mapped account whose tag call took effect is flagged if and
   only if its own record still fails.
   */
  lemma EveryFlagFollowsItsRecord(s: Setup, st: RunState, o: ResetOracle, a: Account) returns (k: nat)
    requires Answers(o) && ReportsResets(s, o) && o.verdict.Fine? && a in s.accounts
    requires !RunReset(s, st, o).1.Unwinds?
    ensures k < |o.records| && o.records[k].account == Some(a)
    ensures Lands(o.tagging[k]) ==> (a in RunReset(s, st, o).0.cloud.flagged <==> StillFailing(s, st, o, k))
  {
    assert a in ResetAccounts(o.records);
    k :| 0 <= k < |o.records| && ResetAccounts(o.records)[k] == a;
    var (after, recreated) := if NeedsRedeploy(o.records) then Recreate(s, st, o) else (st, Returns);
    var records := Judged(o.records, recreated.Returns?);
    forall j: nat | j != k
      ensures !NamedAt(records, j, a)
    {
      if j < |records| {
        assert ResetAccounts(o.records)[j] != ResetAccounts(o.records)[k];
      }
    }
    FlagsFollowTheResults(after.cloud, records, 0, None, o, a, k);
  }
}
