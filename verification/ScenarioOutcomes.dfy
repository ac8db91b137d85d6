/**
 What one run of a scenario trial leaves and records, told from its oracles and the cloud it started
 on alone: when it succeeds, and what each phase does to flags, baselines and the record otherwise.
 */
module ScenarioOutcomes {
  import opened Wrappers
  import opened Clouds
  import opened ScenarioTrials
  import ScenarioTheorems

  // ---- the phase script --------------------------------------------------------------------------

  /** What an operator's deploy, or (with `recovery`) a reset's own, needs before its script may run. */
  predicate GatesOpen(s: Setup, c: Cloud, recovery: bool, o: ContainerOracle) {
    && (!recovery ==> o.flagRead.Fine? && forall a :: a in s.accounts ==> a !in c.flagged)
    && o.baselineRead.Fine?
    && (forall a :: a in s.accounts ==> (s.scenario, a, PreSetup) in c.baselines)
    && (s.accounts != {} ==> o.guardrail.Fine? && !o.tidying.Cancels?)
  }

  /** The script starts: the container comes up (or is up already) and a deploy's gates are open. */
  predicate ScriptStarts(s: Setup, c: Cloud, phase: Phase, up: bool, recovery: bool, o: ContainerOracle) {
    && !o.environmentHook.Cancels? && (up || o.start.Fine?)
    && (if phase.Deploy? then GatesOpen(s, c, recovery, o) else o.environment.Fine?)
    && !o.phaseHook.Cancels?
  }

  predicate ScriptWorks(s: Setup, c: Cloud, phase: Phase, up: bool, recovery: bool, o: ContainerOracle) {
    ScriptStarts(s, c, phase, up, recovery, o) && o.script == Exits(0)
  }

  lemma NoneMissing(s: Setup, c: Cloud)
    ensures MissingInit(s, c) == {} <==> forall a :: a in s.accounts ==> (s.scenario, a, PreSetup) in c.baselines
  {
    assert forall a :: a in MissingInit(s, c) <==> a in s.accounts && (s.scenario, a, PreSetup) !in c.baselines;
  }

  lemma GatesOutcome(s: Setup, st: RunState, checkFlag: bool, o: ContainerOracle)
    requires ValidSetup(s)
    ensures var (after, ended) := DeployGates(s, st, checkFlag, o);
      && (ended.Returns? <==> GatesOpen(s, st.cloud, !checkFlag, o))
      && after == st.(cloud := after.cloud) && st.cloud.history <= after.cloud.history
      && after.cloud == st.cloud.(history := after.cloud.history)
      && forall j :: |st.cloud.history| <= j < |after.cloud.history| ==> after.cloud.history[j].GuardrailApplied?
  {
    NoneMissing(s, st.cloud);
    assert forall a :: a in s.accounts * st.cloud.flagged <==> a in s.accounts && a in st.cloud.flagged;
  }

  lemma ExecuteOutcome(s: Setup, st: RunState, phase: Phase, recovery: bool, o: ContainerOracle)
    ensures var (after, ended) := Execute(s, st, phase, recovery, o);
      && (ended.Returns? <==> (phase.Deploy? || o.environment.Fine?) && o.script == Exits(0))
      && (ended.Returns? ==> after.exitCode == Some(0))
      && after.started == st.started
      && after.cloud == st.cloud.(history := after.cloud.history) && st.cloud.history <= after.cloud.history
      && (!phase.Deploy? ==> after.cloud == st.cloud)
  {
  }

  /** How a script run ends, and what it leaves on the cloud: facts only, and none outside a deploy. */
  lemma ScriptOutcome(s: Setup, st: RunState, phase: Phase, checkFlag: bool, o: ContainerOracle)
    requires ValidSetup(s)
    ensures var (after, ended) := PhaseInContainer(s, st, phase, checkFlag, o);
      && (ended.Returns? <==> ScriptWorks(s, st.cloud, phase, st.started, !checkFlag, o))
      && (ended.Returns? ==> after.exitCode == Some(0))
      && (!ended.Unwinds? ==> (after.started <==> st.started || o.start.Fine? || o.startedAnyway))
      && after.cloud == st.cloud.(history := after.cloud.history) && st.cloud.history <= after.cloud.history
      && (!phase.Deploy? ==> after.cloud == st.cloud)
  {
    var up := Acting(st, EnvironmentStart).(started := true);
    if phase.Deploy? {
      GatesOutcome(s, up, checkFlag, o);
    }
    var (gated, refusal) := if phase.Deploy? then DeployGates(s, up, checkFlag, o) else (up, Returns);
    ExecuteOutcome(s, Acting(gated, PhaseStart), phase, !checkFlag, o);
  }

  // ---- the redeploy of a reset -------------------------------------------------------------------

  /** Whether the container is running when redeploy attempt `i` (from 0) begins. */
  predicate UpAt(up: bool, o: ResetOracle, i: nat)
    requires Answers(o) && i <= REDEPLOY_MAX_ATTEMPTS
  {
    up || exists j :: 0 <= j < i && (o.deploys[j].start.Fine? || o.deploys[j].startedAnyway)
  }

  /** Redeploy attempt `i` is reached and works: every attempt before it was slept off. */
  predicate WorksAt(s: Setup, c: Cloud, up: bool, o: ResetOracle, i: nat)
    requires Answers(o) && i < REDEPLOY_MAX_ATTEMPTS
  {
    && ScriptWorks(s, c, Deploy, UpAt(up, o, i), true, o.deploys[i])
    && forall j :: 0 <= j < i ==> o.sleeps[j].Fine?
  }

  predicate WorksFrom(s: Setup, c: Cloud, up: bool, o: ResetOracle, n: nat)
    requires Answers(o)
  {
    exists i :: n <= i < REDEPLOY_MAX_ATTEMPTS && WorksAt(s, c, up, o, i)
  }

  /** One of the three attempts works. */
  predicate Redeploys(s: Setup, c: Cloud, up: bool, o: ResetOracle)
    requires Answers(o)
  {
    WorksFrom(s, c, up, o, 0)
  }

  lemma WorksNowOrLater(s: Setup, c: Cloud, up: bool, o: ResetOracle, n: nat)
    requires Answers(o) && n < REDEPLOY_MAX_ATTEMPTS
    ensures WorksFrom(s, c, up, o, n) <==> WorksAt(s, c, up, o, n) || WorksFrom(s, c, up, o, n + 1)
    ensures WorksFrom(s, c, up, o, n + 1) ==> o.sleeps[n].Fine?
  {
  }

  lemma WorksWhateverTheHistory(s: Setup, c: Cloud, h: seq<Fact>, up: bool, o: ResetOracle, n: nat)
    requires Answers(o)
    ensures WorksFrom(s, c.(history := h), up, o, n) <==> WorksFrom(s, c, up, o, n)
  {
    assert forall i :: 0 <= i < REDEPLOY_MAX_ATTEMPTS ==>
      (WorksAt(s, c.(history := h), up, o, i) <==> WorksAt(s, c, up, o, i));
  }

  lemma {:induction false} RedeployOutcome(s: Setup, st: RunState, attempt: nat, up: bool, o: ResetOracle)
    requires ValidSetup(s) && Answers(o) && 1 <= attempt <= REDEPLOY_MAX_ATTEMPTS
    requires st.started <==> UpAt(up, o, attempt - 1)
    requires forall j :: 0 <= j < attempt - 1 ==> o.sleeps[j].Fine?
    ensures var (after, ended) := Redeploy(s, st, attempt, o);
      && (!ended.Unwinds? ==> (ended.Returns? <==> WorksFrom(s, st.cloud, up, o, attempt - 1)))
      && (ended.Returns? ==> after.exitCode == Some(0))
      && after.cloud == st.cloud.(history := after.cloud.history) && st.cloud.history <= after.cloud.history
    decreases REDEPLOY_MAX_ATTEMPTS - attempt
  {
    ScriptOutcome(s, st, Deploy, false, o.deploys[attempt - 1]);
    var (after, ended) := PhaseInContainer(s, st, Deploy, false, o.deploys[attempt - 1]);
    assert WorksAt(s, st.cloud, up, o, attempt - 1) <==> ended.Returns?;
    WorksNowOrLater(s, st.cloud, up, o, attempt - 1);
    if ended.Raises? && attempt < REDEPLOY_MAX_ATTEMPTS && o.sleeps[attempt - 1].Fine? {
      RedeployOutcome(s, after, attempt + 1, up, o);
      WorksWhateverTheHistory(s, st.cloud, after.cloud.history, up, o, attempt);
    }
  }

  /** The POST_SETUP baselines a snapshot call stored. */
  function Stored(s: Setup, captures: seq<Capture>): set<(string, Account, Stage)> {
    set cap | cap in captures && cap.stored :: (s.scenario, cap.account, PostSetup)
  }

  lemma StoredOfMore(s: Setup, captures: seq<Capture>, cap: Capture)
    ensures Stored(s, captures + [cap])
         == Stored(s, captures) + (if cap.stored then {(s.scenario, cap.account, PostSetup)} else {})
  {
    assert forall k :: k in captures + [cap] <==> k in captures || k == cap;
  }

  lemma {:induction false} CapturedOutcome(s: Setup, c: Cloud, captures: seq<Capture>)
    ensures var after := Captured(s, c, captures);
      && after.baselines == c.baselines + Stored(s, captures) && after.flagged == c.flagged && c.history <= after.history
  {
    if captures != [] {
      var front, last := captures[..|captures| - 1], captures[|captures| - 1];
      CapturedOutcome(s, c, front);
      assert captures == front + [last];
      StoredOfMore(s, front, last);
    }
  }

  /** The redeploy came back and its baseline was captured whole. */
  predicate Rebuilds(s: Setup, c: Cloud, up: bool, o: ResetOracle)
    requires Answers(o)
  {
    && Redeploys(s, c, up, o) && o.snapshot.verdict.Fine?
    && forall i :: 0 <= i < |o.snapshot.captures| ==> o.snapshot.captures[i].stored
  }

  lemma RecreateOutcome(s: Setup, st: RunState, o: ResetOracle)
    requires ValidSetup(s) && Answers(o)
    ensures var (after, ended) := Recreate(s, st, o);
      && after.cloud.flagged == st.cloud.flagged && st.cloud.history <= after.cloud.history
      && (!ended.Unwinds? ==>
            && (ended.Returns? <==> Rebuilds(s, st.cloud, st.started, o))
            && after.cloud.baselines
               == st.cloud.baselines + (if Redeploys(s, st.cloud, st.started, o) then Stored(s, o.snapshot.captures) else {}))
      && (ended.Returns? ==> after.exitCode == Some(0))
  {
    RedeployOutcome(s, st, 1, st.started, o);
    var (after, ended) := Redeploy(s, st, 1, o);
    CapturedOutcome(s, after.cloud, o.snapshot.captures);
  }

  // ---- a reset's verdicts ------------------------------------------------------------------------

  /** Some record asks for a redeploy. */
  predicate WantsRedeploy(o: ResetOracle) {
    exists i :: 0 <= i < |o.records| && o.records[i].needsRedeploy
  }

  /** Record `k` fails in the end: by itself, or because it needed a redeploy that did not rebuild. */
  predicate RecordFails(s: Setup, c: Cloud, up: bool, o: ResetOracle, k: nat)
    requires Answers(o) && k < |o.records|
  {
    !o.records[k].success || (o.records[k].needsRedeploy && !Rebuilds(s, c, up, o))
  }

  /** Untagging record `k`'s restored account failed. */
  predicate ClearFails(records: seq<ResetRecord>, o: ResetOracle, k: nat)
    requires k < |records| == |o.tagging|
  {
    records[k].account.Some? && records[k].success && o.tagging[k].verdict.Fails?
  }

  /** `k` is the last failed untagging from record `i` on. */
  predicate LastClearFailure(records: seq<ResetRecord>, o: ResetOracle, i: nat, k: nat)
    requires |records| == |o.tagging|
  {
    i <= k < |records| && ClearFails(records, o, k) && forall j :: k < j < |records| ==> !ClearFails(records, o, j)
  }

  predicate NoClearFailure(records: seq<ResetRecord>, o: ResetOracle, i: nat)
    requires |records| == |o.tagging|
  {
    forall k :: i <= k < |records| ==> !ClearFails(records, o, k)
  }

  /** The fact is noted somewhere after the first `n`. */
  ghost predicate NotedAfter(h: seq<Fact>, n: nat, f: Fact) {
    exists j :: n <= j < |h| && h[j] == f
  }

  lemma NotedStays(h: seq<Fact>, g: seq<Fact>, n: nat, f: Fact)
    requires h <= g && NotedAfter(h, n, f)
    ensures NotedAfter(g, n, f)
  {
    var j :| n <= j < |h| && h[j] == f;
    assert g[j] == f;
  }

  lemma {:induction false} TagAllAppends(c: Cloud, records: seq<ResetRecord>, i: nat, clearError: Option<Error>, o: ResetOracle)
    requires i <= |records| == |o.tagging|
    ensures var after := TagAll(c, records, i, clearError, o).0;
      c.history <= after.history && after.baselines == c.baselines
    decreases |records| - i
  {
    if i < |records| {
      if records[i].account.None? {
        TagAllAppends(c, records, i + 1, clearError, o);
      } else if !o.tagging[i].verdict.Cancels? {
        TagAllAppends(Tagged(c, records[i].account.value, records[i].success, o.tagging[i]), records, i + 1,
                      if records[i].success && o.tagging[i].verdict.Fails?
                      then Some(Other(o.tagging[i].verdict.message)) else clearError, o);
      }
    }
  }

  /** An uncancelled tagging loop judges every named record, in the history. */
  lemma {:induction false} TagAllJudges(c: Cloud, records: seq<ResetRecord>, i: nat, clearError: Option<Error>, o: ResetOracle, k: nat)
    requires i <= k < |records| == |o.tagging| && records[k].account.Some?
    requires !TagAll(c, records, i, clearError, o).2
    ensures NotedAfter(TagAll(c, records, i, clearError, o).0.history, |c.history|,
                       ResetJudged(records[k].account.value, records[k].success))
    ensures !o.tagging[k].verdict.Cancels?
    decreases |records| - i
  {
    var next := if records[i].success && o.tagging[i].verdict.Fails?
                then Some(Other(o.tagging[i].verdict.message)) else clearError;
    if records[i].account.None? {
      TagAllJudges(c, records, i + 1, clearError, o, k);
    } else {
      var tagged := Tagged(c, records[i].account.value, records[i].success, o.tagging[i]);
      if i == k {
        TagAllAppends(tagged, records, i + 1, next, o);
        var f := ResetJudged(records[k].account.value, records[k].success);
        assert tagged.history[|c.history|] == f;
        NotedStays(tagged.history, TagAll(c, records, i, clearError, o).0.history, |c.history|, f);
      } else {
        TagAllJudges(tagged, records, i + 1, next, o, k);
      }
    }
  }

  /** What the tagging loop returns is its last failed untagging. */
  lemma {:induction false} TagAllReturns(c: Cloud, records: seq<ResetRecord>, i: nat, clearError: Option<Error>, o: ResetOracle)
    requires i <= |records| == |o.tagging| && !TagAll(c, records, i, clearError, o).2
    ensures forall k: nat :: LastClearFailure(records, o, i, k) ==>
      TagAll(c, records, i, clearError, o).1 == Some(Other(o.tagging[k].verdict.message))
    ensures NoClearFailure(records, o, i) ==> TagAll(c, records, i, clearError, o).1 == clearError
    decreases |records| - i
  {
    if i < |records| {
      if records[i].account.None? {
        TagAllReturns(c, records, i + 1, clearError, o);
      } else {
        var next := if records[i].success && o.tagging[i].verdict.Fails?
                    then Some(Other(o.tagging[i].verdict.message)) else clearError;
        TagAllReturns(Tagged(c, records[i].account.value, records[i].success, o.tagging[i]), records, i + 1, next, o);
      }
      assert NoClearFailure(records, o, i) <==> !ClearFails(records, o, i) && NoClearFailure(records, o, i + 1);
      assert forall k: nat :: LastClearFailure(records, o, i, k) ==>
                                LastClearFailure(records, o, i + 1, k) || (k == i && NoClearFailure(records, o, i + 1));
    }
  }

  lemma JudgedFails(s: Setup, st: RunState, o: ResetOracle, records: seq<ResetRecord>, recreated: Ended)
    requires ValidSetup(s) && Answers(o) && !recreated.Unwinds? && records == Judged(o.records, recreated.Returns?)
    requires recreated == if WantsRedeploy(o) then Recreate(s, st, o).1 else Returns
    ensures forall k: nat :: k < |records| ==> records[k].account == o.records[k].account
    ensures forall k: nat :: k < |records| ==> (records[k].success <==> !RecordFails(s, st.cloud, st.started, o, k))
  {
    RecreateOutcome(s, st, o);
  }

  /** What an uncancelled reset leaves, record by record. */
  lemma RecordOutcome(s: Setup, st: RunState, o: ResetOracle, k: nat)
    requires ValidSetup(s) && Answers(o) && ReportsResets(s, o) && o.verdict.Fine? && k < |o.records|
    requires !RunReset(s, st, o).1.Unwinds?
    ensures var after, a := RunReset(s, st, o).0.cloud, o.records[k].account.value;
      var fails := RecordFails(s, st.cloud, st.started, o, k);
      && NotedAfter(after.history, |st.cloud.history|, ResetJudged(a, !fails))
      && (a in after.flagged <==> if Lands(o.tagging[k]) then fails else a in st.cloud.flagged)
      && !o.tagging[k].verdict.Cancels?
  {
    var (after, recreated) := if NeedsRedeploy(o.records) then Recreate(s, st, o) else (st, Returns);
    var records, a := Judged(o.records, recreated.Returns?), o.records[k].account.value;
    RecreateOutcome(s, st, o);
    JudgedFails(s, st, o, records, recreated);
    TagAllJudges(after.cloud, records, 0, None, o, k);
    forall j: nat | j != k
      ensures !ScenarioTheorems.NamedAt(records, j, a)
    {
      if j < |records| {
        assert ResetAccounts(o.records)[j] != ResetAccounts(o.records)[k];
      }
    }
    ScenarioTheorems.FlagsFollowTheResults(after.cloud, records, 0, None, o, a, k);
  }

  lemma OtherFlagsStay(s: Setup, st: RunState, o: ResetOracle, a: Account)
    requires ValidSetup(s) && Answers(o) && ReportsResets(s, o) && a !in s.accounts
    ensures a in RunReset(s, st, o).0.cloud.flagged <==> a in st.cloud.flagged
  {
    var (after, recreated) := if NeedsRedeploy(o.records) then Recreate(s, st, o) else (st, Returns);
    var records := Judged(o.records, recreated.Returns?);
    RecreateOutcome(s, st, o);
    if o.verdict.Fine? {
      forall j: nat
        ensures !ScenarioTheorems.NamedAt(records, j, a)
      {
        if j < |records| {
          assert ResetAccounts(o.records)[j] in s.accounts;
        }
      }
      ScenarioTheorems.UnnamedFlagIsKept(after.cloud, records, 0, None, o, a);
    }
  }

  /** How an uncancelled reset ends: by severity. */
  lemma ResetEnds(s: Setup, st: RunState, o: ResetOracle)
    requires ValidSetup(s) && Answers(o) && ReportsResets(s, o) && o.verdict.Fine?
    requires !RunReset(s, st, o).1.Unwinds?
    ensures var ended := RunReset(s, st, o).1; var up := st.started;
      && ((exists k: nat :: k < |o.records| && RecordFails(s, st.cloud, up, o, k)) ==> ended == Raises(ResetFailed))
      && ((forall k: nat :: k < |o.records| ==> !RecordFails(s, st.cloud, up, o, k)) ==>
            && (NoClearFailure(o.records, o, 0) ==> ended == Returns)
            && forall k: nat :: LastClearFailure(o.records, o, 0, k) ==> ended == Raises(Other(o.tagging[k].verdict.message)))
  {
    var (after, recreated) := if NeedsRedeploy(o.records) then Recreate(s, st, o) else (st, Returns);
    var records := Judged(o.records, recreated.Returns?);
    JudgedFails(s, st, o, records, recreated);
    TagAllReturns(after.cloud, records, 0, None, o);
    if forall k: nat :: k < |o.records| ==> !RecordFails(s, st.cloud, st.started, o, k) {
      SameClears(o, records);
    }
  }

  lemma SameClears(o: ResetOracle, records: seq<ResetRecord>)
    requires |records| == |o.records| == |o.tagging|
    requires forall k :: 0 <= k < |records| ==> records[k].account == o.records[k].account && records[k].success && o.records[k].success
    ensures NoClearFailure(records, o, 0) <==> NoClearFailure(o.records, o, 0)
    ensures forall k: nat :: LastClearFailure(records, o, 0, k) <==> LastClearFailure(o.records, o, 0, k)
  {
    assert forall k :: 0 <= k < |records| ==> (ClearFails(records, o, k) <==> ClearFails(o.records, o, k));
  }

  lemma ResetBaselines(s: Setup, st: RunState, o: ResetOracle)
    requires ValidSetup(s) && Answers(o) && o.verdict.Fine? && !RunReset(s, st, o).1.Unwinds?
    ensures var after := RunReset(s, st, o).0.cloud;
      && st.cloud.history <= after.history
      && after.baselines == st.cloud.baselines
         + (if WantsRedeploy(o) && Redeploys(s, st.cloud, st.started, o) then Stored(s, o.snapshot.captures) else {})
  {
    var (after, recreated) := if NeedsRedeploy(o.records) then Recreate(s, st, o) else (st, Returns);
    RecreateOutcome(s, st, o);
    TagAllAppends(after.cloud, Judged(o.records, recreated.Returns?), 0, None, o);
  }

  /** The verdicts read the cloud's flags and baselines, not its history. */
  lemma HistoryDoesNotDecide(s: Setup, c: Cloud, h: seq<Fact>, up: bool, o: ResetOracle)
    requires Answers(o)
    ensures Redeploys(s, c.(history := h), up, o) <==> Redeploys(s, c, up, o)
    ensures forall k: nat :: k < |o.records| ==> (RecordFails(s, c.(history := h), up, o, k) <==> RecordFails(s, c, up, o, k))
  {
    WorksWhateverTheHistory(s, c, h, up, o, 0);
  }

  // ---- what a cleanup takes away -----------------------------------------------------------------

  lemma {:induction false} ReportingNotes(s: Setup, c: Cloud, records: seq<CleanupRecord>, k: nat)
    requires k < |records|
    ensures c.history <= Reporting(s, c, records).history
    ensures NotedAfter(Reporting(s, c, records).history, |c.history|,
                       CleanupReported(s.scenario, records[k].account, !records[k].error && records[k].summary == CleanSummary))
  {
    ScenarioTheorems.ReportingTouchesNothing(s, c, records);
    var before, after := Reporting(s, c, records[..|records| - 1]), Reporting(s, c, records);
    var f := CleanupReported(s.scenario, records[k].account, !records[k].error && records[k].summary == CleanSummary);
    ScenarioTheorems.ReportingTouchesNothing(s, c, records[..|records| - 1]);
    if k == |records| - 1 {
      assert after.history[|before.history|] == f;
    } else {
      ReportingNotes(s, c, records[..|records| - 1], k);
      NotedStays(before.history, after.history, |c.history|, f);
    }
  }

  /** The `k`-th account's baseline of this stage is the one named, and deleting it works. */
  predicate DeletesAt(s: Setup, o: CleanupOracle, k: nat, baseline: (string, Account, Stage))
    requires |o.preDeleted| == |o.postDeleted| == |o.targets| && k < |o.targets|
  {
    baseline.0 == s.scenario && baseline.1 == o.targets[k] && if baseline.2.PreSetup? then o.preDeleted[k] else o.postDeleted[k]
  }

  predicate Deletes(s: Setup, o: CleanupOracle, n: nat, baseline: (string, Account, Stage))
    requires Covers(s, o) && n <= |o.targets|
  {
    exists k :: 0 <= k < n && DeletesAt(s, o, k, baseline)
  }

  lemma {:induction false} DeletedAllOutcome(s: Setup, c: Cloud, n: nat, o: CleanupOracle)
    requires Covers(s, o) && n <= |o.targets|
    ensures var after := DeletedAll(s, c, n, o);
      && after.flagged == c.flagged
      && forall b :: b in after.baselines <==> b in c.baselines && !Deletes(s, o, n, b)
  {
    if n > 0 {
      DeletedAllOutcome(s, c, n - 1, o);
      forall b
        ensures Deletes(s, o, n, b) <==> Deletes(s, o, n - 1, b) || DeletesAt(s, o, n - 1, b)
      {
      }
    }
  }

  /** Untagging this account takes effect, from account `i` on. */
  predicate Clears(o: CleanupOracle, i: nat, a: Account)
    requires |o.targets| == |o.clearing|
  {
    exists k :: i <= k < |o.targets| && o.targets[k] == a && Lands(o.clearing[k])
  }

  lemma {:induction false} ClearAllOutcome(c: Cloud, i: nat, o: CleanupOracle)
    requires i <= |o.targets| == |o.clearing| && !ClearAll(c, i, o).1.Unwinds?
    ensures var (after, ended) := ClearAll(c, i, o);
      && ended.Returns? && after.baselines == c.baselines
      && (forall k :: i <= k < |o.targets| ==> !o.clearing[k].verdict.Cancels?)
      && forall a :: a in after.flagged <==> a in c.flagged && !Clears(o, i, a)
    decreases |o.targets| - i
  {
    if i < |o.targets| {
      ClearAllOutcome(Cleared(c, o.targets[i], o.clearing[i]), i + 1, o);
      forall a
        ensures Clears(o, i, a) <==> Clears(o, i + 1, a) || (o.targets[i] == a && Lands(o.clearing[i]))
      {
      }
    }
  }

  /** Every account's record is clean: no error, and a clean summary. */
  predicate AllFoundClean(o: CleanupOracle) {
    forall k :: 0 <= k < |o.records| ==> !o.records[k].error && o.records[k].summary == CleanSummary
  }

  /** What an uncancelled cleanup leaves: all of its effects behind a clean verdict, none short of it. */
  lemma CleanupOutcome(s: Setup, c: Cloud, scriptFailed: bool, o: CleanupOracle)
    requires Covers(s, o) && o.verdict.Fine? && !RunCleanup(s, c, scriptFailed, o).1.Unwinds?
    ensures var (after, ended) := RunCleanup(s, c, scriptFailed, o); var acts := AllFoundClean(o) && !scriptFailed;
      && ended == (if AllFoundClean(o) then Returns else Raises(CleanupFailed))
      && c.history <= after.history
      && (forall k: nat :: k < |o.records| ==> NotedAfter(after.history, |c.history|,
            CleanupReported(s.scenario, o.records[k].account, !o.records[k].error && o.records[k].summary == CleanSummary)))
      && (forall b :: b in after.baselines <==> b in c.baselines && !(acts && Deletes(s, o, |o.targets|, b)))
      && (forall a :: a in after.flagged <==> a in c.flagged && !(acts && Clears(o, 0, a)))
      && (acts ==> forall k :: 0 <= k < |o.clearing| ==> !o.clearing[k].verdict.Cancels?)
  {
    var reported := Reporting(s, c, o.records);
    var judged := Noting(reported, CleanupJudged(s.scenario, s.accounts));
    assert AllClean(o.records) <==> AllFoundClean(o);
    ScenarioTheorems.ReportingTouchesNothing(s, c, o.records);
    DeletedAllOutcome(s, judged, |o.targets|, o);
    ScenarioTheorems.DeletedAllAppends(s, judged, |o.targets|, o);
    if AllClean(o.records) && !scriptFailed {
      ClearAllOutcome(DeletedAll(s, judged, |o.targets|, o), 0, o);
      ScenarioTheorems.ClearAllAppends(DeletedAll(s, judged, |o.targets|, o), 0, o);
    }
    var after := RunCleanup(s, c, scriptFailed, o).0;
    forall k: nat | k < |o.records|
      ensures NotedAfter(after.history, |c.history|,
        CleanupReported(s.scenario, o.records[k].account, !o.records[k].error && o.records[k].summary == CleanSummary))
    {
      ReportingNotes(s, c, o.records, k);
      NotedStays(reported.history, after.history, |c.history|,
        CleanupReported(s.scenario, o.records[k].account, !o.records[k].error && o.records[k].summary == CleanSummary));
    }
  }

  // ---- whole runs --------------------------------------------------------------------------------

  /** No cancellation cut the run's body off. */
  predicate Uncancelled(r: Report) {
    CancelEvent !in r.trace
  }

  lemma UncancelledBody(s: Setup, c: Cloud, phase: Phase, o: RunOracle)
    requires ValidOracle(s, o)
    ensures Uncancelled(Run(s, c, phase, o)) <==> !Body(s, Begun(s, c, phase), phase, o).1.Unwinds?
  {
    ScenarioTheorems.BodyActs(s, c, phase, o);
    var (st, body) := Body(s, Begun(s, c, phase), phase, o);
    var trace := Run(s, c, phase, o).trace;
    if body.Unwinds? {
      assert trace[|st.trace|] == CancelEvent;
    } else {
      assert trace == st.trace + [StopContainer, PersistResult, EndEvent];
    }
  }

  /** The phase's script, if it ships one, ran and exited 0. */
  predicate ScriptFine(s: Setup, c: Cloud, phase: Phase, o: RunOracle) {
    phase in s.scripts ==> ScriptWorks(s, c, phase, false, false, o.container)
  }

  /** Whether the script part left the container running. */
  predicate UpAfterScript(s: Setup, phase: Phase, o: RunOracle) {
    phase in s.scripts && (o.container.start.Fine? || o.container.startedAnyway)
  }

  /** Where an uncancelled run stands when resource management begins. */
  lemma ScriptedState(s: Setup, c: Cloud, phase: Phase, o: RunOracle) returns (st: RunState, script: Ended)
    requires ValidSetup(s) && ValidOracle(s, o) && Uncancelled(Run(s, c, phase, o))
    ensures (st, script) == ScriptPart(s, Acting(Begun(s, c, phase), Start), phase, o)
    ensures !script.Unwinds? && (script.Returns? <==> ScriptFine(s, c, phase, o))
    ensures c.history + [TrialBegan(s.scenario, phase)] <= st.cloud.history
    ensures st.cloud == c.(history := st.cloud.history)
    ensures !phase.Deploy? ==> st.cloud.history == c.history + [TrialBegan(s.scenario, phase)]
    ensures st.started <==> UpAfterScript(s, phase, o)
    ensures script.Returns? ==> st.exitCode == None || st.exitCode == Some(0)
    ensures !o.startHook.Cancels? && (phase.Cleanup? ==> !o.sweep.Cancels?)
    ensures var (managed, management) := ManagementPart(s, st, phase, script.Raises?, o); var r := Run(s, c, phase, o);
      && !management.Unwinds? && r.cloud == managed.cloud && r.exitCode == managed.exitCode
      && r.exception == (if management.Raises? then Some(management.error)
                         else if script.Raises? then Some(script.error)
                         else Recorded(None, Awaited(o.stop)))
  {
    UncancelledBody(s, c, phase, o);
    var begun := Acting(Begun(s, c, phase), Start);
    ScriptOutcome(s, begun, phase, true, o.container);
    var (scripted, ended) := ScriptPart(s, begun, phase, o);
    st, script := scripted, ended;
  }

  /**
   A reset, on every account's own record and whether or not reset.sh failed. Uncancelled, and with
   its manager's answer in hand, it judges the account of every record in the history; the flag
   follows that verdict wherever the tag call took effect, and stays as it was elsewhere.
   */
  lemma ResetJudgesEveryAccount(s: Setup, c: Cloud, o: RunOracle, a: Account) returns (k: nat)
    requires ValidSetup(s) && ValidOracle(s, o) && o.reset.verdict.Fine? && Uncancelled(Run(s, c, Reset, o)) && a in s.accounts
    ensures k < |o.reset.records| && o.reset.records[k].account == Some(a)
    ensures var after := Run(s, c, Reset, o).cloud; var fails := RecordFails(s, c, UpAfterScript(s, Reset, o), o.reset, k);
      && c.history + [TrialBegan(s.scenario, Reset)] <= after.history
      && NotedAfter(after.history, |c.history|, ResetJudged(a, !fails))
      && (a in after.flagged <==> if Lands(o.reset.tagging[k]) then fails else a in c.flagged)
      && !o.reset.tagging[k].verdict.Cancels?
  {
    assert a in ResetAccounts(o.reset.records);
    k :| 0 <= k < |o.reset.records| && ResetAccounts(o.reset.records)[k] == a;
    var st, script := ScriptedState(s, c, Reset, o);
    HistoryDoesNotDecide(s, c, st.cloud.history, st.started, o.reset);
    RecordOutcome(s, st, o.reset, k);
    ResetBaselines(s, st, o.reset);
    assert st.cloud.history <= Run(s, c, Reset, o).cloud.history;
  }

  /**
   What else an uncancelled, answered reset leaves: flags of other accounts as they were; of the
   baselines, those a redeploy that came back captured, on top of what there was; and the exception
   by severity - a record that still fails, then a failed untagging, then the script.
   */
  lemma ResetLeaves(s: Setup, c: Cloud, o: RunOracle)
    requires ValidSetup(s) && ValidOracle(s, o) && o.reset.verdict.Fine? && Uncancelled(Run(s, c, Reset, o))
    ensures var r, up, t := Run(s, c, Reset, o), UpAfterScript(s, Reset, o), o.reset;
      && (forall a :: a !in s.accounts ==> (a in r.cloud.flagged <==> a in c.flagged))
      && r.cloud.baselines == c.baselines
           + (if WantsRedeploy(t) && Redeploys(s, c, up, t) then Stored(s, t.snapshot.captures) else {})
      && ((exists k: nat :: k < |t.records| && RecordFails(s, c, up, t, k)) ==> r.exception == Some(ResetFailed))
      && ((forall k: nat :: k < |t.records| ==> !RecordFails(s, c, up, t, k)) ==>
            forall k: nat :: LastClearFailure(t.records, t, 0, k) ==> r.exception == Some(Other(t.tagging[k].verdict.message)))
  {
    var st, script := ScriptedState(s, c, Reset, o);
    HistoryDoesNotDecide(s, c, st.cloud.history, st.started, o.reset);
    ResetBaselines(s, st, o.reset);
    ResetEnds(s, st, o.reset);
    forall a | a !in s.accounts
      ensures a in RunReset(s, st, o.reset).0.cloud.flagged <==> a in st.cloud.flagged
    {
      OtherFlagsStay(s, st, o.reset, a);
    }
  }

  /**
   A cleanup, whether or not cleanup.sh failed. Uncancelled, and with its manager's answer in hand,
   it notes every account's report, and fails as a cleanup if one is not clean. It takes effect if
   all are clean and the script did not fail: then exactly the flags whose untag call takes effect
   and exactly the scenario's own baselines whose deletion works are gone. Otherwise nothing is.
   */
  lemma CleanupLeaves(s: Setup, c: Cloud, o: RunOracle)
    requires ValidSetup(s) && ValidOracle(s, o) && o.cleanup.verdict.Fine? && Uncancelled(Run(s, c, Cleanup, o))
    ensures var r, t := Run(s, c, Cleanup, o), o.cleanup; var acts := AllFoundClean(t) && ScriptFine(s, c, Cleanup, o);
      && (forall k: nat :: k < |t.records| ==> NotedAfter(r.cloud.history, |c.history|,
            CleanupReported(s.scenario, t.records[k].account, !t.records[k].error && t.records[k].summary == CleanSummary)))
      && (!AllFoundClean(t) ==> r.exception == Some(CleanupFailed))
      && (forall a :: a in r.cloud.flagged <==> a in c.flagged && !(acts && Clears(t, 0, a)))
      && (forall b :: b in r.cloud.baselines <==> b in c.baselines && !(acts && Deletes(s, t, |t.targets|, b)))
  {
    var st, script := ScriptedState(s, c, Cleanup, o);
    CleanupOutcome(s, st.cloud, script.Raises?, o.cleanup);
    var r, t := Run(s, c, Cleanup, o), o.cleanup;
    forall k: nat | k < |t.records|
      ensures NotedAfter(r.cloud.history, |c.history|,
        CleanupReported(s.scenario, t.records[k].account, !t.records[k].error && t.records[k].summary == CleanSummary))
    {
    }
  }

  /**
   A mapped account after a wholly clean, uncancelled cleanup: open again if its untag call took
   effect, and rid of each of the scenario's two baselines whose deletion works.
   */
  lemma CleanedAccountIsOpen(s: Setup, c: Cloud, o: RunOracle, k: nat)
    requires ValidSetup(s) && ValidOracle(s, o) && o.cleanup.verdict.Fine? && Uncancelled(Run(s, c, Cleanup, o))
    requires AllFoundClean(o.cleanup) && ScriptFine(s, c, Cleanup, o) && k < |o.cleanup.targets|
    ensures var after, t := Run(s, c, Cleanup, o).cloud, o.cleanup; var a := t.targets[k];
      && a in s.accounts
      && (a in after.flagged <==> a in c.flagged && !Lands(t.clearing[k]))
      && ((s.scenario, a, PreSetup) in after.baselines <==> (s.scenario, a, PreSetup) in c.baselines && !t.preDeleted[k])
      && ((s.scenario, a, PostSetup) in after.baselines <==> (s.scenario, a, PostSetup) in c.baselines && !t.postDeleted[k])
      && forall b: (string, Account, Stage) :: b.0 != s.scenario ==> (b in after.baselines <==> b in c.baselines)
  {
    CleanupLeaves(s, c, o);
    var t := o.cleanup;
    var a := t.targets[k];
    assert Clears(t, 0, a) <==> Lands(t.clearing[k]);
    assert Deletes(s, t, |t.targets|, (s.scenario, a, PreSetup)) <==> DeletesAt(s, t, k, (s.scenario, a, PreSetup));
    assert Deletes(s, t, |t.targets|, (s.scenario, a, PostSetup)) <==> DeletesAt(s, t, k, (s.scenario, a, PostSetup));
  }

  /** A verification changes no flag and no baseline, and fails as one if some account did not pass, script or not. */
  lemma VerifyLeaves(s: Setup, c: Cloud, o: RunOracle)
    requires ValidSetup(s) && ValidOracle(s, o) && o.verify.verdict.Fine? && Uncancelled(Run(s, c, Verify, o))
    ensures var r := Run(s, c, Verify, o);
      && r.cloud == c.(history := c.history + [TrialBegan(s.scenario, Verify)])
      && ((exists k :: 0 <= k < |o.verify.records| && !o.verify.records[k].passed) ==> r.exception == Some(VerifyFailed))
  {
    var st, script := ScriptedState(s, c, Verify, o);
  }

  /** A deploy captures a baseline only behind a script that worked; it touches no flag. */
  lemma DeployLeaves(s: Setup, c: Cloud, o: RunOracle)
    requires ValidSetup(s) && ValidOracle(s, o) && Uncancelled(Run(s, c, Deploy, o))
    ensures var r := Run(s, c, Deploy, o); var works := ScriptWorks(s, c, Deploy, false, false, o.container);
      && r.cloud.flagged == c.flagged
      && r.cloud.baselines == c.baselines + (if works then Stored(s, o.snapshot.captures) else {})
      && (works && o.snapshot.verdict.Fine? && (exists k :: 0 <= k < |o.snapshot.captures| && !o.snapshot.captures[k].stored)
          ==> r.exception == Some(SnapshotFailed))
  {
    var st, script := ScriptedState(s, c, Deploy, o);
    CapturedOutcome(s, st.cloud, o.snapshot.captures);
  }

  // ---- success, and the record of a failure ------------------------------------------------------

  /** Everything the phase's resource management needs came back, and was good. */
  predicate ManagementFine(s: Setup, c: Cloud, phase: Phase, o: RunOracle)
    requires ValidOracle(s, o)
  {
    match phase
    case Deploy =>
      o.snapshot.verdict.Fine? && forall k :: 0 <= k < |o.snapshot.captures| ==> o.snapshot.captures[k].stored
    case Verify =>
      o.verify.verdict.Fine? && forall k :: 0 <= k < |o.verify.records| ==> o.verify.records[k].passed
    case Reset =>
      && o.reset.verdict.Fine?
      && (forall k: nat :: k < |o.reset.records| ==> !RecordFails(s, c, UpAfterScript(s, Reset, o), o.reset, k))
      && (forall k :: 0 <= k < |o.reset.tagging| ==> o.reset.tagging[k].verdict.Fine?)
    case Cleanup =>
      o.cleanup.verdict.Fine? && AllFoundClean(o.cleanup)
  }

  lemma ResetSucceeds(s: Setup, c: Cloud, o: RunOracle, st: RunState)
    requires ValidSetup(s) && ValidOracle(s, o) && st.cloud == c.(history := st.cloud.history)
    requires st.started <==> UpAfterScript(s, Reset, o)
    requires !RunReset(s, st, o.reset).1.Unwinds?
    ensures RunReset(s, st, o.reset).1.Returns? <==> ManagementFine(s, c, Reset, o)
  {
    var t, up := o.reset, st.started;
    if t.verdict.Fine? {
      HistoryDoesNotDecide(s, c, st.cloud.history, up, t);
      ResetEnds(s, st, t);
      if forall k: nat :: k < |t.records| ==> !RecordFails(s, st.cloud, up, t, k) {
        forall k: nat | k < |t.records|
          ensures t.tagging[k].verdict.Fine? <==> !ClearFails(t.records, t, k)
        {
          RecordOutcome(s, st, t, k);
          assert !RecordFails(s, st.cloud, up, t, k);
        }
        if !NoClearFailure(t.records, t, 0) {
          var k := LastOf(t.records, t, |t.records|);
          assert !t.tagging[k].verdict.Fine?;
        }
      }
    }
  }

  lemma {:induction false} LastOf(records: seq<ResetRecord>, o: ResetOracle, n: nat) returns (k: nat)
    requires n <= |records| == |o.tagging| && !NoClearFailure(records, o, 0) && NoClearFailure(records, o, n)
    ensures LastClearFailure(records, o, 0, k)
  {
    if n > 0 && ClearFails(records, o, n - 1) {
      k := n - 1;
    } else {
      k := LastOf(records, o, n - 1);
    }
  }

  lemma ResetExitCode(s: Setup, st: RunState, o: ResetOracle)
    requires ValidSetup(s) && Answers(o) && RunReset(s, st, o).1.Returns?
    requires st.exitCode == None || st.exitCode == Some(0)
    ensures var after := RunReset(s, st, o).0; after.exitCode == None || after.exitCode == Some(0)
  {
    RecreateOutcome(s, st, o);
    if NeedsRedeploy(o.records) {
      var records := Judged(o.records, Recreate(s, st, o).1.Returns?);
      var k :| 0 <= k < |o.records| && o.records[k].needsRedeploy;
      assert AllReset(records) ==> records[k].success;
    }
  }

  /**
   A run succeeds exactly if nothing cancelled it, its script - where there is one - started behind
   open gates and exited 0, everything its resource management needs was good, and the container
   stopped. No gate refuses more than that, and none lets less through.
   */
  lemma SucceedsExactly(s: Setup, c: Cloud, phase: Phase, o: RunOracle)
    requires ValidSetup(s) && ValidOracle(s, o)
    ensures var r := Run(s, c, phase, o);
      Succeeded(r) <==> Uncancelled(r) && ScriptFine(s, c, phase, o) && ManagementFine(s, c, phase, o) && o.stop.Fine?
  {
    UncancelledBody(s, c, phase, o);
    var r := Run(s, c, phase, o);
    if Uncancelled(r) {
      var st, script := ScriptedState(s, c, phase, o);
      match phase
      case Deploy =>
      case Verify =>
      case Reset =>
        ResetSucceeds(s, c, o, st);
        if script.Returns? && RunReset(s, st, o.reset).1.Returns? {
          ResetExitCode(s, st, o.reset);
          assert r.exitCode == RunReset(s, st, o.reset).0.exitCode;
        }
      case Cleanup =>
        if o.cleanup.verdict.Fine? {
          CleanupOutcome(s, st.cloud, script.Raises?, o.cleanup);
        }
    }
  }

  // ---- cancellations -----------------------------------------------------------------------------

  predicate CalmContainer(o: ContainerOracle) {
    && !o.environmentHook.Cancels? && !o.start.Cancels? && !o.flagRead.Cancels? && !o.baselineRead.Cancels?
    && !o.guardrail.Cancels? && !o.tidying.Cancels? && !o.phaseHook.Cancels? && !o.environment.Cancels? && !o.script.Stopped?
  }

  /** No cancellation lands anywhere in the body of the run. */
  predicate Calm(o: RunOracle) {
    && !o.startHook.Cancels? && !o.sweep.Cancels? && CalmContainer(o.container)
    && !o.snapshot.verdict.Cancels? && !o.verify.verdict.Cancels? && !o.reset.verdict.Cancels? && !o.cleanup.verdict.Cancels?
    && CalmReset(o.reset)
    && (forall k :: 0 <= k < |o.cleanup.clearing| ==> !o.cleanup.clearing[k].verdict.Cancels?)
  }

  predicate CalmReset(o: ResetOracle) {
    && (forall k :: 0 <= k < |o.deploys| ==> CalmContainer(o.deploys[k]))
    && (forall k :: 0 <= k < |o.sleeps| ==> !o.sleeps[k].Cancels?)
    && !o.snapshot.verdict.Cancels?
    && (forall k :: 0 <= k < |o.tagging| ==> !o.tagging[k].verdict.Cancels?)
  }

  lemma CalmScript(s: Setup, st: RunState, phase: Phase, checkFlag: bool, o: ContainerOracle)
    requires CalmContainer(o)
    ensures !PhaseInContainer(s, st, phase, checkFlag, o).1.Unwinds?
  {
  }

  lemma {:induction false} CalmRedeploy(s: Setup, st: RunState, attempt: nat, o: ResetOracle)
    requires Answers(o) && CalmReset(o) && 1 <= attempt <= REDEPLOY_MAX_ATTEMPTS
    ensures !Redeploy(s, st, attempt, o).1.Unwinds?
    decreases REDEPLOY_MAX_ATTEMPTS - attempt
  {
    CalmScript(s, st, Deploy, false, o.deploys[attempt - 1]);
    var (after, ended) := PhaseInContainer(s, st, Deploy, false, o.deploys[attempt - 1]);
    if ended.Raises? && attempt < REDEPLOY_MAX_ATTEMPTS && o.sleeps[attempt - 1].Fine? {
      CalmRedeploy(s, after, attempt + 1, o);
    }
  }

  lemma {:induction false} CalmTags(c: Cloud, records: seq<ResetRecord>, i: nat, clearError: Option<Error>, o: ResetOracle)
    requires i <= |records| == |o.tagging| && CalmReset(o)
    ensures !TagAll(c, records, i, clearError, o).2
    decreases |records| - i
  {
    if i < |records| {
      if records[i].account.None? {
        CalmTags(c, records, i + 1, clearError, o);
      } else {
        CalmTags(Tagged(c, records[i].account.value, records[i].success, o.tagging[i]), records, i + 1,
                 if records[i].success && o.tagging[i].verdict.Fails?
                 then Some(Other(o.tagging[i].verdict.message)) else clearError, o);
      }
    }
  }

  lemma {:induction false} CalmClears(c: Cloud, i: nat, o: CleanupOracle)
    requires i <= |o.targets| == |o.clearing| && forall k :: 0 <= k < |o.clearing| ==> !o.clearing[k].verdict.Cancels?
    ensures !ClearAll(c, i, o).1.Unwinds?
    decreases |o.targets| - i
  {
    if i < |o.targets| {
      CalmClears(Cleared(c, o.targets[i], o.clearing[i]), i + 1, o);
    }
  }

  lemma CalmManagement(s: Setup, st: RunState, phase: Phase, scriptFailed: bool, o: RunOracle)
    requires ValidOracle(s, o) && Calm(o)
    ensures !ManagementPart(s, st, phase, scriptFailed, o).1.Unwinds?
  {
    match phase
    case Deploy =>
    case Verify =>
    case Reset =>
      CalmRedeploy(s, st, 1, o.reset);
      var (after, recreated) := if NeedsRedeploy(o.reset.records) then Recreate(s, st, o.reset) else (st, Returns);
      CalmTags(after.cloud, Judged(o.reset.records, recreated.Returns?), 0, None, o.reset);
    case Cleanup =>
      var judged := Noting(Reporting(s, st.cloud, o.cleanup.records), CleanupJudged(s.scenario, s.accounts));
      CalmClears(DeletedAll(s, judged, |o.cleanup.targets|, o.cleanup), 0, o.cleanup);
  }

  /** Only a cancellation cancels a run, and a cancelled run records it and lets it through to the caller. */
  lemma OnlyCancelsCancel(s: Setup, c: Cloud, phase: Phase, o: RunOracle)
    requires ValidSetup(s) && ValidOracle(s, o)
    ensures var r := Run(s, c, phase, o);
      && (Calm(o) ==> Uncancelled(r))
      && (!Uncancelled(r) ==> r.escapes && r.exception == Some(Cancelled))
      && (Uncancelled(r) ==> (r.escapes <==> o.endHook.Cancels?))
  {
    UncancelledBody(s, c, phase, o);
    var begun := Acting(Begun(s, c, phase), Start);
    if Calm(o) {
      CalmScript(s, begun, phase, true, o.container);
      var (st, script) := ScriptPart(s, begun, phase, o);
      CalmManagement(s, st, phase, script.Raises?, o);
    }
  }

  /** A cancellation that an uncancelled run reached is not there: each of these cuts the body off. */
  lemma ReachedCancelsCut(s: Setup, c: Cloud, phase: Phase, o: RunOracle)
    requires ValidSetup(s) && ValidOracle(s, o) && Uncancelled(Run(s, c, phase, o))
    ensures !o.startHook.Cancels? && (phase.Cleanup? ==> !o.sweep.Cancels?)
    ensures phase in s.scripts ==>
      && !o.container.environmentHook.Cancels? && !o.container.start.Cancels?
      && (ScriptStarts(s, c, phase, false, false, o.container) ==> !o.container.script.Stopped?)
    ensures match phase
            case Deploy => ScriptFine(s, c, Deploy, o) ==> !o.snapshot.verdict.Cancels?
            case Verify => !o.verify.verdict.Cancels?
            case Reset => !o.reset.verdict.Cancels?
            case Cleanup =>
              && !o.cleanup.verdict.Cancels?
              && (o.cleanup.verdict.Fine? && AllFoundClean(o.cleanup) && ScriptFine(s, c, Cleanup, o) ==>
                    forall k :: 0 <= k < |o.cleanup.clearing| ==> !o.cleanup.clearing[k].verdict.Cancels?)
  {
    var st, script := ScriptedState(s, c, phase, o);
    if phase in s.scripts {
      StartedScriptsStop(s, c, phase, o);
    }
    if phase.Cleanup? && o.cleanup.verdict.Fine? {
      CleanupOutcome(s, st.cloud, script.Raises?, o.cleanup);
    }
  }

  lemma StartedScriptsStop(s: Setup, c: Cloud, phase: Phase, o: RunOracle)
    requires ValidSetup(s) && ValidOracle(s, o) && phase in s.scripts
    ensures var ended := ScriptPart(s, Acting(Begun(s, c, phase), Start), phase, o).1;
      && (!ended.Unwinds? ==> !o.container.environmentHook.Cancels? && !o.container.start.Cancels?)
      && (ScriptStarts(s, c, phase, false, false, o.container) ==>
            ended == match o.container.script
                     case Exits(n) => if n == 0 then Returns else Raises(NonZeroExit(phase, n))
                     case TimesOut => Raises(PhaseTimeout(phase))
                     case Breaks(message) => Raises(Other(message))
                     case Stopped => Unwinds)
  {
    var begun := Acting(Begun(s, c, phase), Start);
    var up := Acting(begun, EnvironmentStart).(started := true);
    GatesOutcome(s, up, true, o.container);
  }

  // ---- a script that fails, and a deploy that is refused -----------------------------------------

  /** A script that started and did not work is the recorded failure, unless resource management has one of its own. */
  lemma ScriptErrorIsRecorded(s: Setup, c: Cloud, phase: Phase, o: RunOracle)
    requires ValidSetup(s) && ValidOracle(s, o) && Uncancelled(Run(s, c, phase, o)) && phase in s.scripts
    requires ScriptStarts(s, c, phase, false, false, o.container) && o.container.script != Exits(0)
    requires !phase.Deploy? ==> ManagementFine(s, c, phase, o)
    ensures var r := Run(s, c, phase, o);
      && r.exception == Some(match o.container.script
                             case Exits(n) => NonZeroExit(phase, n)
                             case TimesOut => PhaseTimeout(phase)
                             case Breaks(message) => Other(message)
                             case Stopped => Cancelled)
      && (!phase.Reset? ==> r.exitCode == if o.container.script.Exits? then Some(o.container.script.code) else None)
  {
    var st, script := ScriptedState(s, c, phase, o);
    StartedScriptsStop(s, c, phase, o);
    match phase
    case Deploy =>
    case Verify =>
    case Reset => ResetSucceeds(s, c, o, st);
    case Cleanup => CleanupOutcome(s, st.cloud, script.Raises?, o.cleanup);
  }

  /** A deploy whose container is up refuses flagged accounts first and missing init baselines next, by name. */
  lemma DeployRefusals(s: Setup, c: Cloud, o: RunOracle)
    requires ValidSetup(s) && ValidOracle(s, o) && !o.startHook.Cancels?
    requires !o.container.environmentHook.Cancels? && o.container.start.Fine? && o.container.flagRead.Fine?
    ensures var r, flagged := Run(s, c, Deploy, o), set a | a in s.accounts && a in c.flagged;
      flagged != {} ==> r.exception == Some(AccountContaminated(flagged)) && r.cloud == Begun(s, c, Deploy).cloud
    ensures var r := Run(s, c, Deploy, o); var missing := set a | a in s.accounts && (s.scenario, a, PreSetup) !in c.baselines;
      (forall a :: a in s.accounts ==> a !in c.flagged) && o.container.baselineRead.Fine? && missing != {} ==>
        r.exception == Some(SetupInvalid(missing)) && r.cloud == Begun(s, c, Deploy).cloud
  {
    var flagged := set a | a in s.accounts && a in c.flagged;
    assert s.accounts * c.flagged == flagged;
    assert (forall a :: a in s.accounts ==> a !in c.flagged) <==> flagged == {} by {
      assert forall a :: a in flagged <==> a in s.accounts && a in c.flagged;
    }
    assert MissingInit(s, c) == set a | a in s.accounts && (s.scenario, a, PreSetup) !in c.baselines;
  }

  /** An operator's deploy.sh begins exactly if the run gets to it and every gate is open. */
  lemma DeployBeginsExactly(s: Setup, c: Cloud, o: RunOracle)
    requires ValidSetup(s) && ValidOracle(s, o)
    ensures NotedAfter(Run(s, c, Deploy, o).cloud.history, |c.history|, DeployBegan(s.scenario, s.accounts, false))
       <==> !o.startHook.Cancels? && ScriptStarts(s, c, Deploy, false, false, o.container)
  {
    var f := DeployBegan(s.scenario, s.accounts, false);
    var begun := Acting(Begun(s, c, Deploy), Start);
    var h := Run(s, c, Deploy, o).cloud.history;
    if !o.startHook.Cancels? {
      ScriptBegins(s, begun, o.container);
      var (st, script) := ScriptPart(s, begun, Deploy, o);
      CapturedOutcome(s, st.cloud, o.snapshot.captures);
      if ScriptStarts(s, c, Deploy, false, false, o.container) {
        NotedLater(st.cloud.history, h, |begun.cloud.history|, |c.history|, f);
      } else {
        assert forall j :: |c.history| <= j < |h| ==> h[j] != f;
      }
    }
  }

  lemma NotedLater(h: seq<Fact>, g: seq<Fact>, n: nat, m: nat, f: Fact)
    requires h <= g && m <= n && NotedAfter(h, n, f)
    ensures NotedAfter(g, m, f)
  {
    var j :| n <= j < |h| && h[j] == f;
    assert g[j] == f;
  }

  lemma ScriptBegins(s: Setup, st: RunState, o: ContainerOracle)
    requires ValidSetup(s) && !st.started
    ensures var (after, ended) := PhaseInContainer(s, st, Deploy, true, o); var h, n := after.cloud.history, |st.cloud.history|;
      && st.cloud.history <= h
      && (ScriptStarts(s, st.cloud, Deploy, false, false, o) ==> NotedAfter(h, n, DeployBegan(s.scenario, s.accounts, false)))
      && (!ScriptStarts(s, st.cloud, Deploy, false, false, o) ==>
            !ended.Returns? && forall j :: n <= j < |h| ==> h[j].GuardrailApplied?)
  {
    var up := Acting(st, EnvironmentStart).(started := true);
    GatesOutcome(s, up, true, o);
    ScriptOutcome(s, st, Deploy, true, o);
    var gated := DeployGates(s, up, true, o).0;
    if ScriptStarts(s, st.cloud, Deploy, false, false, o) {
      var h := PhaseInContainer(s, st, Deploy, true, o).0.cloud.history;
      assert h[|gated.cloud.history|] == DeployBegan(s.scenario, s.accounts, false);
    }
  }

  // ---- the events ----------------------------------------------------------------------------------

  /** The phase's PHASE_START is reached: the container is up and a deploy's gates are open. */
  predicate PhaseReached(s: Setup, c: Cloud, phase: Phase, o: ContainerOracle) {
    !o.environmentHook.Cancels? && o.start.Fine? && (phase.Deploy? ==> GatesOpen(s, c, false, o))
  }

  /** The whole trace of an uncancelled run that is no reset: each event is there exactly if the run got to it. */
  lemma EventsTellTheRun(s: Setup, c: Cloud, phase: Phase, o: RunOracle)
    requires ValidSetup(s) && ValidOracle(s, o) && Uncancelled(Run(s, c, phase, o)) && !phase.Reset?
    ensures Run(s, c, phase, o).trace ==
      [Start]
      + (if phase in s.scripts then [EnvironmentStart] else [])
      + (if phase in s.scripts && PhaseReached(s, c, phase, o.container) then [PhaseStart] else [])
      + [StopContainer, PersistResult, EndEvent]
  {
    UncancelledBody(s, c, phase, o);
    var begun := Acting(Begun(s, c, phase), Start);
    ScriptTrace(s, begun, phase, o.container);
    var (st, script) := ScriptPart(s, begun, phase, o);
    assert [Start] + [] == [Start];
  }

  lemma ScriptTrace(s: Setup, st: RunState, phase: Phase, o: ContainerOracle)
    requires ValidSetup(s) && !st.started
    ensures PhaseInContainer(s, st, phase, true, o).0.trace
         == st.trace + [EnvironmentStart] + (if PhaseReached(s, st.cloud, phase, o) then [PhaseStart] else [])
  {
    var up := Acting(st, EnvironmentStart).(started := true);
    GatesOutcome(s, up, true, o);
  }
}
