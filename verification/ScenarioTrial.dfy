/**
 One scenario trial: an optional container script, then the phase's resource management, then
 teardown, whatever happens. Every call into AWS, docker, the resource managers and the hooks is
 an oracle: it returns, raises, or is where a cancellation lands.
 */
module ScenarioTrials {
  import opened Wrappers
  import opened Clouds

  const REDEPLOY_MAX_ATTEMPTS: nat := 3

  datatype Verdict = Fine | Fails(message: string) | Cancels

  datatype Error =
    | Cancelled
    | AccountContaminated(accounts: set<Account>)
    | SetupInvalid(missing: set<Account>)
    | PhaseTimeout(phase: Phase)
    | NonZeroExit(phase: Phase, exitCode: int)
    | SnapshotFailed
    | VerifyFailed
    | ResetFailed
    | CleanupFailed
    | Other(message: string)

  /** How a coroutine ends: normally, with an exception, or unwinding on a cancellation. */
  datatype Ended = Returns | Raises(error: Error) | Unwinds

  /** A plain awaited call whose failure is an exception of its own. */
  function Awaited(v: Verdict): Ended {
    match v
    case Fine => Returns
    case Fails(message) => Raises(Other(message))
    case Cancels => Unwinds
  }

  /** The trial's configuration. Manifests declare at least one region and ship a deploy.sh. */
  datatype Setup = Setup(scenario: string, accounts: set<Account>, regions: seq<string>, scripts: set<Phase>)

  predicate ValidSetup(s: Setup) {
    s.regions != [] && Deploy in s.scripts
  }

  datatype Action = Start | EnvironmentStart | PhaseStart | CancelEvent | StopContainer | PersistResult | EndEvent

  /** What a run updates as it goes. */
  datatype RunState = RunState(cloud: Cloud, started: bool, exitCode: Option<int>, trace: seq<Action>)

  function Acting(st: RunState, a: Action): RunState {
    st.(trace := st.trace + [a])
  }

  function Recording(st: RunState, f: Fact): RunState {
    st.(cloud := Noting(st.cloud, f))
  }

  // ---- the container script --------------------------------------------------------------------

  datatype ScriptVerdict = Exits(code: int) | TimesOut | Breaks(message: string) | Stopped

  /** `startedAnyway`: whether a start that did not return still left the container running. */
  datatype ContainerOracle = ContainerOracle(
    environmentHook: Verdict, start: Verdict, startedAnyway: bool, flagRead: Verdict, baselineRead: Verdict,
    guardrail: Verdict, tidying: Verdict, phaseHook: Verdict, environment: Verdict, script: ScriptVerdict)

  function MissingInit(s: Setup, c: Cloud): set<Account> {
    set a | a in s.accounts && (s.scenario, a, PreSetup) !in c.baselines
  }

  /** What a deploy passes before its script may run, in order; the first refusal ends it. */
  function DeployGates(s: Setup, st: RunState, checkFlag: bool, o: ContainerOracle): (RunState, Ended) {
    if checkFlag && !o.flagRead.Fine? then (st, Awaited(o.flagRead))
    else if checkFlag && s.accounts * st.cloud.flagged != {} then
      (st, Raises(AccountContaminated(s.accounts * st.cloud.flagged)))
    else if !o.baselineRead.Fine? then (st, Awaited(o.baselineRead))
    else if MissingInit(s, st.cloud) != {} then (st, Raises(SetupInvalid(MissingInit(s, st.cloud))))
    else if s.accounts == {} || s.regions == [] then (st, Returns)
    else if !o.guardrail.Fine? then (st, Awaited(o.guardrail))
    else (Recording(st, GuardrailApplied(s.scenario, s.accounts)), if o.tidying.Cancels? then Unwinds else Returns)
  }

  function Execute(s: Setup, st: RunState, phase: Phase, recovery: bool, o: ContainerOracle): (RunState, Ended) {
    if !phase.Deploy? && !o.environment.Fine? then (st, Awaited(o.environment))
    else
      var began := if phase.Deploy? then Recording(st, DeployBegan(s.scenario, s.accounts, recovery)) else st;
      match o.script
      case Exits(code) =>
        var exited := began.(exitCode := Some(code));
        (if phase.Deploy? then Recording(exited, DeployEnded(s.scenario, code)) else exited,
         if code == 0 then Returns else Raises(NonZeroExit(phase, code)))
      case TimesOut => (began, Raises(PhaseTimeout(phase)))
      case Breaks(message) => (began, Raises(Other(message)))
      case Stopped => (began, Unwinds)
  }

  function PhaseInContainer(s: Setup, st: RunState, phase: Phase, checkFlag: bool, o: ContainerOracle): (RunState, Ended) {
    var hooked := Acting(st, EnvironmentStart);
    if o.environmentHook.Cancels? then (hooked, Unwinds)
    else if !hooked.started && !o.start.Fine? then (hooked.(started := o.startedAnyway), Awaited(o.start))
    else
      var (gated, refusal) :=
        if phase.Deploy? then DeployGates(s, hooked.(started := true), checkFlag, o)
        else (hooked.(started := true), Returns);
      if !refusal.Returns? then (gated, refusal)
      else if o.phaseHook.Cancels? then (Acting(gated, PhaseStart), Unwinds)
      else Execute(s, Acting(gated, PhaseStart), phase, !checkFlag, o)
  }

  /** The managers answer with one result per mapped account, a failure becoming a failed result. */
  predicate OnePerAccount(accounts: set<Account>, reported: seq<Account>) {
    && (forall i :: 0 <= i < |reported| ==> reported[i] in accounts)
    && (forall a :: a in accounts ==> a in reported)
    && (forall i, j :: 0 <= i < j < |reported| ==> reported[i] != reported[j])
  }

  // ---- snapshot ----------------------------------------------------------------------------------

  /** One per-account result: the account and whether its baseline was stored. */
  datatype Capture = Capture(account: Account, stored: bool)

  datatype SnapshotOracle = SnapshotOracle(captures: seq<Capture>, verdict: Verdict)

  function CaptureAccounts(captures: seq<Capture>): seq<Account> {
    seq(|captures|, i requires 0 <= i < |captures| => captures[i].account)
  }

  /** A call that does not come back may have stored some baselines already. */
  predicate ReportsCaptures(s: Setup, o: SnapshotOracle) {
    if o.verdict.Fine? then OnePerAccount(s.accounts, CaptureAccounts(o.captures))
    else forall i :: 0 <= i < |o.captures| ==> o.captures[i].account in s.accounts
  }

  function Captured(s: Setup, c: Cloud, captures: seq<Capture>): Cloud {
    if captures == [] then c else
      var before := Captured(s, c, captures[..|captures| - 1]);
      var last := captures[|captures| - 1];
      if last.stored then
        Noting(before, SnapshotTaken(s.scenario, last.account))
          .(baselines := before.baselines + {(s.scenario, last.account, PostSetup)})
      else before
  }

  predicate AllStored(captures: seq<Capture>) {
    forall i :: 0 <= i < |captures| ==> captures[i].stored
  }

  function Snapshot(s: Setup, c: Cloud, o: SnapshotOracle): (Cloud, Ended) {
    (Captured(s, c, o.captures),
     if !o.verdict.Fine? then Awaited(o.verdict) else if AllStored(o.captures) then Returns else Raises(SnapshotFailed))
  }

  // ---- reset -------------------------------------------------------------------------------------

  datatype ResetRecord = ResetRecord(account: Option<Account>, success: bool, needsRedeploy: bool)

  /** A tag or untag call: whether it took effect on AWS, and how it came back. */
  datatype TagCall = TagCall(landed: bool, verdict: Verdict)

  predicate Lands(t: TagCall) {
    t.landed || t.verdict.Fine?
  }

  datatype ResetOracle = ResetOracle(
    verdict: Verdict, records: seq<ResetRecord>, deploys: seq<ContainerOracle>, sleeps: seq<Verdict>,
    snapshot: SnapshotOracle, tagging: seq<TagCall>)

  /** An account id is optional in the record's type; the manager always sets it. */
  predicate ReportsResets(s: Setup, o: ResetOracle) {
    o.verdict.Fine? ==>
      && (forall i :: 0 <= i < |o.records| ==> o.records[i].account.Some?)
      && OnePerAccount(s.accounts, ResetAccounts(o.records))
  }

  function ResetAccounts(records: seq<ResetRecord>): seq<Account>
    requires forall i :: 0 <= i < |records| ==> records[i].account.Some?
  {
    seq(|records|, i requires 0 <= i < |records| => records[i].account.value)
  }

  /** The oracle answers every question the reset can ask. */
  predicate Answers(o: ResetOracle) {
    |o.deploys| == REDEPLOY_MAX_ATTEMPTS && |o.sleeps| == REDEPLOY_MAX_ATTEMPTS && |o.tagging| == |o.records|
  }

  function Redeploy(s: Setup, st: RunState, attempt: nat, o: ResetOracle): (RunState, Ended)
    requires Answers(o) && 1 <= attempt <= REDEPLOY_MAX_ATTEMPTS
    decreases REDEPLOY_MAX_ATTEMPTS - attempt
  {
    var (after, ended) := PhaseInContainer(s, st, Deploy, false, o.deploys[attempt - 1]);
    if !ended.Raises? || attempt == REDEPLOY_MAX_ATTEMPTS then (after, ended)
    else if !o.sleeps[attempt - 1].Fine? then (after, Awaited(o.sleeps[attempt - 1]))
    else Redeploy(s, after, attempt + 1, o)
  }

  /** Redeploy and, if it came back, recapture the baseline. */
  function Recreate(s: Setup, st: RunState, o: ResetOracle): (RunState, Ended)
    requires Answers(o)
  {
    var (after, ended) := Redeploy(s, st, 1, o);
    if !ended.Returns? then (after, ended) else
      var (cloud, captured) := Snapshot(s, after.cloud, o.snapshot);
      (after.(cloud := cloud), captured)
  }

  predicate NeedsRedeploy(records: seq<ResetRecord>) {
    exists i :: 0 <= i < |records| && records[i].needsRedeploy
  }

  /** A failed redeploy turns every result that needed it into a failure. */
  function Judged(records: seq<ResetRecord>, recreated: bool): (r: seq<ResetRecord>)
    ensures |r| == |records|
  {
    seq(|records|, i requires 0 <= i < |records| =>
      if records[i].needsRedeploy && !recreated then records[i].(success := false) else records[i])
  }

  /** Flag or clear one judged account. */
  function Tagged(c: Cloud, a: Account, success: bool, call: TagCall): Cloud {
    var judged := Noting(c, ResetJudged(a, success));
    if !Lands(call) then judged
    else if success then Noting(judged, Unflagged(a)).(flagged := judged.flagged - {a})
    else Noting(judged, Flagged(a)).(flagged := judged.flagged + {a})
  }

  /** The tagging loop from record `i` on; the last clear failure is what it returns. */
  function TagAll(c: Cloud, records: seq<ResetRecord>, i: nat, clearError: Option<Error>, o: ResetOracle)
    : (Cloud, Option<Error>, bool)
    requires i <= |records| == |o.tagging|
    decreases |records| - i
  {
    if i == |records| then (c, clearError, false)
    else if records[i].account.None? then TagAll(c, records, i + 1, clearError, o)
    else
      var call := o.tagging[i];
      var tagged := Tagged(c, records[i].account.value, records[i].success, call);
      if call.verdict.Cancels? then (tagged, clearError, true)
      else TagAll(tagged, records, i + 1,
                  if records[i].success && call.verdict.Fails? then Some(Other(call.verdict.message)) else clearError, o)
  }

  predicate AllReset(records: seq<ResetRecord>) {
    forall i :: 0 <= i < |records| ==> records[i].success
  }

  function RunReset(s: Setup, st: RunState, o: ResetOracle): (RunState, Ended)
    requires Answers(o)
  {
    if !o.verdict.Fine? then (st, Awaited(o.verdict)) else
      var (after, recreated) := if NeedsRedeploy(o.records) then Recreate(s, st, o) else (st, Returns);
      if recreated.Unwinds? then (after, Unwinds) else
        var records := Judged(o.records, recreated.Returns?);
        var (cloud, clearError, cut) := TagAll(after.cloud, records, 0, None, o);
        (after.(cloud := cloud),
         if cut then Unwinds
         else if !AllReset(records) then Raises(ResetFailed)
         else if clearError.Some? then Raises(clearError.value)
         else Returns)
  }

  // ---- verify and cleanup --------------------------------------------------------------------------

  datatype VerifyRecord = VerifyRecord(account: Account, passed: bool)

  datatype VerifyOracle = VerifyOracle(verdict: Verdict, records: seq<VerifyRecord>)

  function VerifyAccounts(records: seq<VerifyRecord>): seq<Account> {
    seq(|records|, i requires 0 <= i < |records| => records[i].account)
  }

  predicate ReportsVerifications(s: Setup, o: VerifyOracle) {
    o.verdict.Fine? ==> OnePerAccount(s.accounts, VerifyAccounts(o.records))
  }

  predicate AllPassed(records: seq<VerifyRecord>) {
    forall i :: 0 <= i < |records| ==> records[i].passed
  }

  function RunVerify(o: VerifyOracle): Ended {
    if !o.verdict.Fine? then Awaited(o.verdict) else if AllPassed(o.records) then Returns else Raises(VerifyFailed)
  }

  datatype Summary = NoSummary | Dirty | CleanSummary
  datatype CleanupRecord = CleanupRecord(account: Account, error: bool, summary: Summary)

  predicate IsClean(r: CleanupRecord) {
    !r.error && r.summary.CleanSummary?
  }

  predicate AllClean(records: seq<CleanupRecord>) {
    forall i :: 0 <= i < |records| ==> IsClean(records[i])
  }

  function CleanupAccounts(records: seq<CleanupRecord>): seq<Account> {
    seq(|records|, i requires 0 <= i < |records| => records[i].account)
  }

  /** `targets` lists the mapped accounts in iteration order; `deleted` and `cleared` follow it. */
  datatype CleanupOracle = CleanupOracle(
    verdict: Verdict, records: seq<CleanupRecord>, targets: seq<Account>,
    preDeleted: seq<bool>, postDeleted: seq<bool>, clearing: seq<TagCall>)

  predicate Covers(s: Setup, o: CleanupOracle) {
    && OnePerAccount(s.accounts, o.targets)
    && |o.preDeleted| == |o.postDeleted| == |o.clearing| == |o.targets|
    && (o.verdict.Fine? ==> OnePerAccount(s.accounts, CleanupAccounts(o.records)))
  }

  /** The cleanup's per-account results, as they came. */
  function Reporting(s: Setup, c: Cloud, records: seq<CleanupRecord>): Cloud {
    if records == [] then c else
      var last := records[|records| - 1];
      Noting(Reporting(s, c, records[..|records| - 1]), CleanupReported(s.scenario, last.account, IsClean(last)))
  }

  /** Deleting one baseline: skipped when absent, best-effort when present. */
  function Deleted(s: Setup, c: Cloud, a: Account, stage: Stage, works: bool): Cloud {
    if (s.scenario, a, stage) in c.baselines && works then
      Noting(c, BaselineDeleted(s.scenario, a, stage)).(baselines := c.baselines - {(s.scenario, a, stage)})
    else c
  }

  function DeletedAll(s: Setup, c: Cloud, n: nat, o: CleanupOracle): Cloud
    requires Covers(s, o) && n <= |o.targets|
  {
    if n == 0 then c else
      var before := DeletedAll(s, c, n - 1, o);
      Deleted(s, Deleted(s, before, o.targets[n - 1], PreSetup, o.preDeleted[n - 1]),
              o.targets[n - 1], PostSetup, o.postDeleted[n - 1])
  }

  function Cleared(c: Cloud, a: Account, call: TagCall): Cloud {
    if Lands(call) then Noting(c, Unflagged(a)).(flagged := c.flagged - {a}) else c
  }

  /** Clearing the flags from account `i` on; only a cancellation stops it. */
  function ClearAll(c: Cloud, i: nat, o: CleanupOracle): (Cloud, Ended)
    requires i <= |o.targets| == |o.clearing|
    decreases |o.targets| - i
  {
    if i == |o.targets| then (c, Returns) else
      var cleared := Cleared(c, o.targets[i], o.clearing[i]);
      if o.clearing[i].verdict.Cancels? then (cleared, Unwinds) else ClearAll(cleared, i + 1, o)
  }

  function RunCleanup(s: Setup, c: Cloud, scriptFailed: bool, o: CleanupOracle): (Cloud, Ended)
    requires Covers(s, o)
  {
    if !o.verdict.Fine? then (c, Awaited(o.verdict)) else
      var reported := Reporting(s, c, o.records);
      if !AllClean(o.records) then (reported, Raises(CleanupFailed))
      else if scriptFailed then (reported, Returns)
      else ClearAll(DeletedAll(s, Noting(reported, CleanupJudged(s.scenario, s.accounts)), |o.targets|, o), 0, o)
  }

  // ---- the whole run ---------------------------------------------------------------------------------

  datatype RunOracle = RunOracle(
    startHook: Verdict, sweep: Verdict, container: ContainerOracle,
    snapshot: SnapshotOracle, verify: VerifyOracle, reset: ResetOracle, cleanup: CleanupOracle,
    cancelHook: Verdict, stop: Verdict, endHook: Verdict)

  predicate ValidOracle(s: Setup, o: RunOracle) {
    && Answers(o.reset) && Covers(s, o.cleanup)
    && ReportsCaptures(s, o.snapshot) && ReportsVerifications(s, o.verify)
    && ReportsResets(s, o.reset) && ReportsCaptures(s, o.reset.snapshot)
  }

  function ScriptPart(s: Setup, st: RunState, phase: Phase, o: RunOracle): (RunState, Ended) {
    if phase in s.scripts then PhaseInContainer(s, st, phase, true, o.container) else (st, Returns)
  }

  function ManagementPart(s: Setup, st: RunState, phase: Phase, scriptFailed: bool, o: RunOracle): (RunState, Ended)
    requires ValidOracle(s, o)
  {
    match phase
    case Deploy =>
      if scriptFailed then (st, Returns) else
        var (cloud, ended) := Snapshot(s, st.cloud, o.snapshot);
        (st.(cloud := cloud), ended)
    case Verify => (st, RunVerify(o.verify))
    case Reset => RunReset(s, st, o.reset)
    case Cleanup =>
      var (cloud, ended) := RunCleanup(s, st.cloud, scriptFailed, o.cleanup);
      (st.(cloud := cloud), ended)
  }

  /** The body of the try block: where it stops, what it leaves, and the script error it held back. */
  function Body(s: Setup, st: RunState, phase: Phase, o: RunOracle): (RunState, Ended)
    requires ValidOracle(s, o)
  {
    var begun := Acting(st, Start);
    if o.startHook.Cancels? || (phase.Cleanup? && o.sweep.Cancels?) then (begun, Unwinds) else
      var (scripted, script) := ScriptPart(s, begun, phase, o);
      if script.Unwinds? then (scripted, Unwinds) else
        var (managed, management) := ManagementPart(s, scripted, phase, script.Raises?, o);
        (managed, if management.Returns? then script else management)
  }

  /** First exception wins. */
  function Recorded(already: Option<Error>, ended: Ended): Option<Error> {
    if already.Some? then already
    else match ended
         case Returns => None
         case Raises(error) => Some(error)
         case Unwinds => Some(Cancelled)
  }

  /** What is left after the run: `escapes` when a cancellation propagates to the caller. */
  datatype Report = Report(cloud: Cloud, exception: Option<Error>, exitCode: Option<int>, trace: seq<Action>, escapes: bool)

  function Begun(s: Setup, c: Cloud, phase: Phase): RunState {
    RunState(Noting(c, TrialBegan(s.scenario, phase)), false, None, [])
  }

  function Run(s: Setup, c: Cloud, phase: Phase, o: RunOracle): Report
    requires ValidOracle(s, o)
  {
    var (st, body) := Body(s, Begun(s, c, phase), phase, o);
    var trace := st.trace + (if body.Unwinds? then [CancelEvent] else []) + [StopContainer, PersistResult, EndEvent];
    Report(st.cloud, Recorded(Recorded(None, body), Awaited(o.stop)), st.exitCode, trace,
           body.Unwinds? || o.endHook.Cancels?)
  }

  predicate Succeeded(r: Report) {
    r.exception.None? && (r.exitCode == None || r.exitCode == Some(0))
  }
}
