/**
 What the scenario and task trials leave behind in AWS: contamination flags, baseline snapshots,
 and the history of everything that matters for their safety, oldest first.
 */
module Clouds {

  type Account = string

  datatype Stage = PreSetup | PostSetup

  datatype Phase = Deploy | Verify | Cleanup | Reset

  datatype Fact =
    | TrialBegan(scenario: string, phase: Phase)
    | InitCaptured(scenario: string, account: Account)
    | GuardrailApplied(scenario: string, accounts: set<Account>)
    | DeployBegan(scenario: string, accounts: set<Account>, recovery: bool)
    | DeployEnded(scenario: string, exitCode: int)
    | SnapshotTaken(scenario: string, account: Account)
    | ResetJudged(account: Account, restored: bool)
    | Flagged(account: Account)
    | Unflagged(account: Account)
    | CleanupReported(scenario: string, account: Account, clean: bool)
    | CleanupJudged(scenario: string, accounts: set<Account>)
    | BaselineDeleted(scenario: string, account: Account, stage: Stage)
    | TaskBegan(accounts: set<Account>, verified: bool)

  /** `atFirst`: the accounts that carried a flag already when the history began. */
  datatype Cloud = Cloud(flagged: set<Account>, baselines: set<(string, Account, Stage)>, history: seq<Fact>, atFirst: set<Account>)

  function Noting(c: Cloud, f: Fact): Cloud {
    c.(history := c.history + [f])
  }

  /** `d` is `c` later on: facts were added, and none rewritten. */
  predicate Extends(c: Cloud, d: Cloud) {
    c.history <= d.history && d.atFirst == c.atFirst
  }

  // ---- reading a history ---------------------------------------------------------------------

  /** A successful reset of the account, or a cleanup of its scenario judged wholly clean. */
  predicate Restores(f: Fact, a: Account) {
    f == ResetJudged(a, true) || (f.CleanupJudged? && a in f.accounts)
  }

  /** The flag the history leaves on the account: what it last says of it, or the flag it had at first. */
  ghost predicate FlagSays(h: seq<Fact>, atFirst: set<Account>, a: Account) {
    if h == [] then a in atFirst
    else
      var last, before := h[|h| - 1], h[..|h| - 1];
      last == Flagged(a) || (last != Unflagged(a) && FlagSays(before, atFirst, a))
  }

  /** The account's deploy baseline was captured, and not deleted since. */
  ghost predicate PostHeld(h: seq<Fact>, scenario: string, a: Account) {
    h != [] &&
    var last, before := h[|h| - 1], h[..|h| - 1];
    last == SnapshotTaken(scenario, a) || (last != BaselineDeleted(scenario, a, PostSetup) && PostHeld(before, scenario, a))
  }

  /** The account was flagged, and nothing restored it since. */
  ghost predicate Blocked(h: seq<Fact>, a: Account) {
    h != [] &&
    var last, before := h[|h| - 1], h[..|h| - 1];
    last == Flagged(a) || (!Restores(last, a) && Blocked(before, a))
  }

  /** The account's init baseline was captured, and not deleted since. */
  ghost predicate InitHeld(h: seq<Fact>, scenario: string, a: Account) {
    h != [] &&
    var last, before := h[|h| - 1], h[..|h| - 1];
    last == InitCaptured(scenario, a) || (last != BaselineDeleted(scenario, a, PreSetup) && InitHeld(before, scenario, a))
  }

  /** A deploy.sh of the scenario has just exited 0; only its snapshots came after. */
  ghost predicate JustDeployed(h: seq<Fact>, scenario: string) {
    h != [] &&
    var last, before := h[|h| - 1], h[..|h| - 1];
    last == DeployEnded(scenario, 0) || (last.SnapshotTaken? && last.scenario == scenario && JustDeployed(before, scenario))
  }

  /** A cleanup covering the account was just judged wholly clean; only its deletions came after. */
  ghost predicate JustCleaned(h: seq<Fact>, scenario: string, a: Account) {
    h != [] &&
    var last, before := h[|h| - 1], h[..|h| - 1];
    (last.CleanupJudged? && last.scenario == scenario && a in last.accounts)
    || (last.BaselineDeleted? && last.scenario == scenario && JustCleaned(before, scenario, a))
  }

  /** The cleanup under way has so far reported only clean accounts, this one among them. */
  ghost predicate ReportedClean(h: seq<Fact>, scenario: string, a: Account) {
    h != [] &&
    var last, before := h[|h| - 1], h[..|h| - 1];
    last.CleanupReported? && last.scenario == scenario && last.clean
    && (last.account == a || ReportedClean(before, scenario, a))
  }

  /** The account was just restored; only deletions and lifted flags came after. */
  ghost predicate JustRestored(h: seq<Fact>, a: Account) {
    h != [] &&
    var last, before := h[|h| - 1], h[..|h| - 1];
    Restores(last, a) || ((last.BaselineDeleted? || last.Unflagged?) && JustRestored(before, a))
  }

  /** The trial under way, if any, is a reset of the scenario. */
  ghost predicate InReset(h: seq<Fact>, scenario: string) {
    h != [] &&
    var last, before := h[|h| - 1], h[..|h| - 1];
    if last.TrialBegan? then last == TrialBegan(scenario, Reset) else InReset(before, scenario)
  }

  /** An operator's deploy.sh or a verified task's body starting on the account. */
  predicate StartsOn(f: Fact, a: Account) {
    (f.DeployBegan? && !f.recovery && a in f.accounts) || (f.TaskBegan? && f.verified && a in f.accounts)
  }

  /** `f` may come right after the history `h`. */
  ghost predicate Allowed(h: seq<Fact>, f: Fact) {
    match f
    case DeployBegan(scenario, accounts, recovery) =>
      && (if recovery then InReset(h, scenario) else forall a :: a in accounts ==> !Blocked(h, a))
      && (forall a :: a in accounts ==> InitHeld(h, scenario, a))
      && (accounts != {} ==> h != [] && h[|h| - 1] == GuardrailApplied(scenario, accounts))
    case TaskBegan(accounts, verified) => verified ==> forall a :: a in accounts ==> !Blocked(h, a)
    case SnapshotTaken(scenario, _) => JustDeployed(h, scenario)
    case BaselineDeleted(scenario, a, _) => JustCleaned(h, scenario, a)
    case CleanupJudged(scenario, accounts) => forall a :: a in accounts ==> ReportedClean(h, scenario, a)
    case Unflagged(a) => JustRestored(h, a)
    case InitCaptured(scenario, a) => !InitHeld(h, scenario, a)
    case _ => true
  }

  ghost predicate Sound(h: seq<Fact>) {
    forall j :: 0 <= j < |h| ==> Allowed(h[..j], h[j])
  }

  /** The cloud is what its history says, and its history is sound. */
  ghost predicate CloudInv(c: Cloud) {
    && Sound(c.history)
    && (forall a :: Blocked(c.history, a) ==> a in c.flagged)
    && BaselinesAgree(c) && FlagsAgree(c) && NoneStartsFlagged(c)
  }

  ghost predicate BaselinesAgree(c: Cloud) {
    && (forall scenario, a :: (scenario, a, PreSetup) in c.baselines <==> InitHeld(c.history, scenario, a))
    && (forall scenario, a :: (scenario, a, PostSetup) in c.baselines <==> PostHeld(c.history, scenario, a))
  }

  ghost predicate FlagsAgree(c: Cloud) {
    forall a :: a in c.flagged <==> FlagSays(c.history, c.atFirst, a)
  }

  /** No operator's deploy.sh and no verified task ever started on an account that was flagged just then. */
  ghost predicate NoneStartsFlagged(c: Cloud) {
    forall j, a :: 0 <= j < |c.history| && StartsOn(c.history[j], a) ==> !FlagSays(c.history[..j], c.atFirst, a)
  }

  lemma NotingKeepsSound(h: seq<Fact>, f: Fact)
    requires Sound(h) && Allowed(h, f)
    ensures Sound(h + [f])
  {
    forall j | 0 <= j < |h + [f]|
      ensures Allowed((h + [f])[..j], (h + [f])[j])
    {
      assert (h + [f])[..j] == h[..j];
      assert h[..|h|] == h;
    }
  }

  lemma NotingUnfolds(h: seq<Fact>, f: Fact)
    ensures forall a :: Blocked(h + [f], a) <==> f == Flagged(a) || (!Restores(f, a) && Blocked(h, a))
    ensures forall scenario, a ::
      InitHeld(h + [f], scenario, a)
      <==> f == InitCaptured(scenario, a) || (f != BaselineDeleted(scenario, a, PreSetup) && InitHeld(h, scenario, a))
    ensures forall scenario ::
      JustDeployed(h + [f], scenario)
      <==> f == DeployEnded(scenario, 0) || (f.SnapshotTaken? && f.scenario == scenario && JustDeployed(h, scenario))
    ensures forall scenario, a ::
      JustCleaned(h + [f], scenario, a)
      <==> (f.CleanupJudged? && f.scenario == scenario && a in f.accounts)
           || (f.BaselineDeleted? && f.scenario == scenario && JustCleaned(h, scenario, a))
  {
    assert (h + [f])[..|h|] == h;
  }

  lemma NotingFlags(h: seq<Fact>, f: Fact, atFirst: set<Account>)
    ensures forall a :: FlagSays(h + [f], atFirst, a) <==> f == Flagged(a) || (f != Unflagged(a) && FlagSays(h, atFirst, a))
    ensures forall scenario, a ::
      PostHeld(h + [f], scenario, a)
      <==> f == SnapshotTaken(scenario, a) || (f != BaselineDeleted(scenario, a, PostSetup) && PostHeld(h, scenario, a))
  {
    assert (h + [f])[..|h|] == h;
  }

  lemma NotingStarts(c: Cloud, f: Fact, d: Cloud)
    requires NoneStartsFlagged(c) && FlagsAgree(c) && d.history == c.history + [f] && d.atFirst == c.atFirst
    requires forall a :: StartsOn(f, a) ==> a !in c.flagged
    ensures NoneStartsFlagged(d)
  {
    forall j, a | 0 <= j < |d.history| && StartsOn(d.history[j], a)
      ensures !FlagSays(d.history[..j], d.atFirst, a)
    {
      if j < |c.history| {
        assert d.history[..j] == c.history[..j];
      } else {
        assert d.history[..j] == c.history;
      }
    }
  }

  lemma NotingRestored(h: seq<Fact>, f: Fact, a: Account)
    ensures JustRestored(h + [f], a) <==> Restores(f, a) || ((f.BaselineDeleted? || f.Unflagged?) && JustRestored(h, a))
  {
    assert (h + [f])[..|h|] == h;
  }

  lemma NotingReported(h: seq<Fact>, f: Fact, scenario: string, a: Account)
    ensures ReportedClean(h + [f], scenario, a)
       <==> f.CleanupReported? && f.scenario == scenario && f.clean && (f.account == a || ReportedClean(h, scenario, a))
  {
    assert (h + [f])[..|h|] == h;
  }

  lemma {:induction false} RestoredIsOpen(h: seq<Fact>, a: Account)
    requires JustRestored(h, a)
    ensures !Blocked(h, a)
    decreases |h|
  {
    if !Restores(h[|h| - 1], a) {
      RestoredIsOpen(h[..|h| - 1], a);
    }
  }

  lemma NotingDeployed(h: seq<Fact>, scenario: string)
    ensures JustDeployed(h + [DeployEnded(scenario, 0)], scenario)
  {
  }

  lemma NotingInTrial(h: seq<Fact>, f: Fact, scenario: string)
    ensures InReset(h + [f], scenario)
       <==> if f.TrialBegan? then f == TrialBegan(scenario, Reset) else InReset(h, scenario)
  {
    assert (h + [f])[..|h|] == h;
  }

  /** Any allowed fact that leaves flags and init baselines consistent with it keeps the invariant. */
  lemma NotingKeepsInv(c: Cloud, f: Fact, d: Cloud)
    requires CloudInv(c) && Allowed(c.history, f) && d.history == c.history + [f] && d.atFirst == c.atFirst
    requires forall a :: StartsOn(f, a) ==> a !in c.flagged
    requires f.Flagged? ==> d.flagged == c.flagged + {f.account}
    requires f.Unflagged? ==> d.flagged == c.flagged - {f.account}
    requires !f.Flagged? && !f.Unflagged? ==> d.flagged == c.flagged
    requires forall scenario, a :: (scenario, a, PreSetup) in d.baselines <==>
      f == InitCaptured(scenario, a)
      || ((scenario, a, PreSetup) in c.baselines && f != BaselineDeleted(scenario, a, PreSetup))
    requires forall scenario, a :: (scenario, a, PostSetup) in d.baselines <==>
      f == SnapshotTaken(scenario, a)
      || ((scenario, a, PostSetup) in c.baselines && f != BaselineDeleted(scenario, a, PostSetup))
    ensures CloudInv(d)
  {
    NotingKeepsSound(c.history, f);
    NotingUnfolds(c.history, f);
    NotingFlags(c.history, f, c.atFirst);
    NotingStarts(c, f, d);
    if f.Unflagged? {
      RestoredIsOpen(c.history, f.account);
    }
  }

  // ---- what a sound history says -------------------------------------------------------------

  /** The fact at `m` restored the account: its own reset succeeded, or its own cleanup report was clean. */
  ghost predicate Restored(h: seq<Fact>, m: nat, a: Account)
    requires m < |h|
  {
    h[m] == ResetJudged(a, true) || (h[m].CleanupJudged? && a in h[m].accounts && OwnReportClean(h, m, a))
  }

  /** Only clean reports of this cleanup lie between the account's own and the verdict at `m`. */
  ghost predicate OwnReportClean(h: seq<Fact>, m: nat, a: Account)
    requires m < |h| && h[m].CleanupJudged?
  {
    exists r :: 0 <= r < m && h[r] == CleanupReported(h[m].scenario, a, true)
                && forall k :: r < k < m ==> h[k].CleanupReported? && h[k].scenario == h[m].scenario && h[k].clean
  }

  lemma {:induction false} OwnReport(h: seq<Fact>, scenario: string, a: Account) returns (r: nat)
    requires ReportedClean(h, scenario, a)
    ensures r < |h| && h[r] == CleanupReported(scenario, a, true)
    ensures forall k :: r < k < |h| ==> h[k].CleanupReported? && h[k].scenario == scenario && h[k].clean
    decreases |h|
  {
    if h[|h| - 1].account == a {
      r := |h| - 1;
    } else {
      r := OwnReport(h[..|h| - 1], scenario, a);
    }
  }

  lemma JudgedWereReported(h: seq<Fact>, m: nat, a: Account)
    requires Sound(h) && m < |h| && h[m].CleanupJudged? && a in h[m].accounts
    ensures ReportedClean(h[..m], h[m].scenario, a)
  {
    assert Allowed(h[..m], h[m]);
  }

  /** A cleanup judged wholly clean had each of its accounts reported clean. */
  lemma VerdictsRestOnReports(h: seq<Fact>, m: nat, a: Account)
    requires Sound(h) && m < |h| && h[m].CleanupJudged? && a in h[m].accounts
    ensures OwnReportClean(h, m, a)
  {
    JudgedWereReported(h, m, a);
    ReportsAreInFront(h, m, a);
  }

  lemma ReportsAreInFront(h: seq<Fact>, m: nat, a: Account)
    requires m < |h| && h[m].CleanupJudged? && ReportedClean(h[..m], h[m].scenario, a)
    ensures OwnReportClean(h, m, a)
  {
    var before := h[..m];
    var r := OwnReport(before, h[m].scenario, a);
    OwnReportAt(h, m, a, before, r);
  }

  lemma OwnReportAt(h: seq<Fact>, m: nat, a: Account, before: seq<Fact>, r: nat)
    requires r < m < |h| && before == h[..m] && h[m].CleanupJudged? && before[r] == CleanupReported(h[m].scenario, a, true)
    requires forall k :: r < k < m ==> before[k].CleanupReported? && before[k].scenario == h[m].scenario && before[k].clean
    ensures OwnReportClean(h, m, a)
  {
    assert h[r] == before[r];
    assert forall k :: 0 <= k < m ==> h[k] == before[k];
  }

  lemma RestorationsAreReal(h: seq<Fact>, m: nat, a: Account)
    requires Sound(h) && m < |h| && Restores(h[m], a)
    ensures Restored(h, m, a)
  {
    if h[m].CleanupJudged? {
      VerdictsRestOnReports(h, m, a);
    }
  }

  lemma {:induction false} UnblockedWasRestored(h: seq<Fact>, a: Account, i: nat) returns (m: nat)
    requires i < |h| && h[i] == Flagged(a) && !Blocked(h, a)
    ensures i < m < |h| && Restores(h[m], a)
    decreases |h|
  {
    if Restores(h[|h| - 1], a) {
      m := |h| - 1;
    } else {
      m := UnblockedWasRestored(h[..|h| - 1], a, i);
    }
  }

  /**
   Between a flagging that took effect and any later start on the account there is a successful
   reset of that account, or a wholly clean cleanup that reported that very account clean.
   */
  lemma FlaggedStaysClosed(h: seq<Fact>, a: Account, i: nat, j: nat) returns (m: nat)
    requires Sound(h) && i < j < |h| && h[i] == Flagged(a) && StartsOn(h[j], a)
    ensures i < m < j && Restored(h, m, a)
  {
    assert Allowed(h[..j], h[j]);
    m := UnblockedWasRestored(h[..j], a, i);
    RestorationsAreReal(h, m, a);
  }

  lemma {:induction false} LastRestoration(h: seq<Fact>, a: Account) returns (m: nat)
    requires JustRestored(h, a)
    ensures m < |h| && Restores(h[m], a)
    ensures forall k :: m < k < |h| ==> h[k].BaselineDeleted? || h[k].Unflagged?
    decreases |h|
  {
    if Restores(h[|h| - 1], a) {
      m := |h| - 1;
    } else {
      m := LastRestoration(h[..|h| - 1], a);
    }
  }

  /** A flag is lifted only right after the account was restored: deletions and lifted flags aside. */
  lemma FlagsAreLiftedAfterRestoring(h: seq<Fact>, a: Account, j: nat) returns (m: nat)
    requires Sound(h) && j < |h| && h[j] == Unflagged(a)
    ensures m < j && Restored(h, m, a)
    ensures forall k :: m < k < j ==> h[k].BaselineDeleted? || h[k].Unflagged?
  {
    assert Allowed(h[..j], h[j]);
    m := LastRestoration(h[..j], a);
    RestorationsAreReal(h, m, a);
  }

  lemma {:induction false} ResetsAreUnderWay(h: seq<Fact>, scenario: string) returns (b: nat)
    requires InReset(h, scenario)
    ensures b < |h| && h[b] == TrialBegan(scenario, Reset)
    ensures forall k :: b < k < |h| ==> !h[k].TrialBegan?
    decreases |h|
  {
    if h[|h| - 1].TrialBegan? {
      b := |h| - 1;
    } else {
      b := ResetsAreUnderWay(h[..|h| - 1], scenario);
    }
  }

  /** The one deploy.sh that may run on a flagged account is the one a reset of its scenario launched. */
  lemma OnlyResetsAreExempt(h: seq<Fact>, j: nat) returns (b: nat)
    requires Sound(h) && j < |h| && h[j].DeployBegan? && h[j].recovery
    ensures b < j && h[b] == TrialBegan(h[j].scenario, Reset)
    ensures forall k :: b < k < j ==> !h[k].TrialBegan?
  {
    assert Allowed(h[..j], h[j]);
    b := ResetsAreUnderWay(h[..j], h[j].scenario);
  }

  /** The deploy.sh run that a snapshot stands for: exit 0, with only snapshots in between. */
  lemma {:induction false} SnapshotFollowsDeploy(h: seq<Fact>, scenario: string) returns (d: nat)
    requires JustDeployed(h, scenario)
    ensures d < |h| && h[d] == DeployEnded(scenario, 0)
    ensures forall k :: d < k < |h| ==> h[k].SnapshotTaken? && h[k].scenario == scenario
    decreases |h|
  {
    if h[|h| - 1] == DeployEnded(scenario, 0) {
      d := |h| - 1;
    } else {
      d := SnapshotFollowsDeploy(h[..|h| - 1], scenario);
    }
  }

  lemma {:induction false} DeletionFollowsCleanup(h: seq<Fact>, scenario: string, a: Account) returns (d: nat)
    requires JustCleaned(h, scenario, a)
    ensures d < |h| && h[d].CleanupJudged? && h[d].scenario == scenario && a in h[d].accounts
    ensures forall k :: d < k < |h| ==> h[k].BaselineDeleted? && h[k].scenario == scenario
    decreases |h|
  {
    if h[|h| - 1].CleanupJudged? {
      d := |h| - 1;
    } else {
      d := DeletionFollowsCleanup(h[..|h| - 1], scenario, a);
    }
  }

  lemma {:induction false} InitHeldWasCaptured(h: seq<Fact>, scenario: string, a: Account) returns (d: nat)
    requires InitHeld(h, scenario, a)
    ensures d < |h| && h[d] == InitCaptured(scenario, a)
    ensures forall k :: d < k < |h| ==> h[k] != BaselineDeleted(scenario, a, PreSetup)
    decreases |h|
  {
    if h[|h| - 1] == InitCaptured(scenario, a) {
      d := |h| - 1;
    } else {
      d := InitHeldWasCaptured(h[..|h| - 1], scenario, a);
    }
  }

  lemma {:induction false} LostWasDeleted(h: seq<Fact>, scenario: string, a: Account, i: nat) returns (m: nat)
    requires i < |h| && h[i] == InitCaptured(scenario, a) && !InitHeld(h, scenario, a)
    ensures i < m < |h| && h[m] == BaselineDeleted(scenario, a, PreSetup)
    decreases |h|
  {
    if h[|h| - 1] == BaselineDeleted(scenario, a, PreSetup) {
      m := |h| - 1;
    } else {
      m := LostWasDeleted(h[..|h| - 1], scenario, a, i);
    }
  }

  /** An init baseline is never captured over one that is held: between two captures it was deleted. */
  lemma InitIsCapturedOnce(h: seq<Fact>, scenario: string, a: Account, i: nat, j: nat) returns (m: nat)
    requires Sound(h) && i < j < |h| && h[i] == InitCaptured(scenario, a) && h[j] == InitCaptured(scenario, a)
    ensures i < m < j && h[m] == BaselineDeleted(scenario, a, PreSetup)
  {
    assert Allowed(h[..j], h[j]);
    m := LostWasDeleted(h[..j], scenario, a, i);
  }

  /** The three baseline rules, each read off a history. */
  ghost predicate SnapshotIsFresh(h: seq<Fact>, j: nat)
    requires j < |h| && h[j].SnapshotTaken?
  {
    exists d :: 0 <= d < j && h[d] == DeployEnded(h[j].scenario, 0) && forall k :: d < k < j ==> h[k].SnapshotTaken?
  }

  ghost predicate DeployIsGuarded(h: seq<Fact>, j: nat)
    requires j < |h| && h[j].DeployBegan?
  {
    && (h[j].accounts != {} ==> 0 < j && h[j - 1] == GuardrailApplied(h[j].scenario, h[j].accounts))
    && forall a :: a in h[j].accounts ==> InitCapturedBefore(h, j, h[j].scenario, a)
  }

  /** Before `j` the account's init baseline was captured, and not deleted since. */
  ghost predicate InitCapturedBefore(h: seq<Fact>, j: nat, scenario: string, a: Account)
    requires j <= |h|
  {
    exists d :: 0 <= d < j && h[d] == InitCaptured(scenario, a)
                && forall k :: d < k < j ==> h[k] != BaselineDeleted(scenario, a, PreSetup)
  }

  ghost predicate DeletionIsEarned(h: seq<Fact>, j: nat)
    requires j < |h| && h[j].BaselineDeleted?
  {
    exists d :: 0 <= d < j && h[d].CleanupJudged? && h[d].scenario == h[j].scenario && Restored(h, d, h[j].account)
                && forall k :: d < k < j ==> h[k].BaselineDeleted?
  }

  lemma DeploysAreGuarded(h: seq<Fact>, j: nat)
    requires Sound(h) && j < |h| && h[j].DeployBegan?
    ensures DeployIsGuarded(h, j)
  {
    DeploysWereHeld(h, j);
    assert 0 < j ==> h[..j][|h[..j]| - 1] == h[j - 1];
    forall a | a in h[j].accounts
      ensures InitCapturedBefore(h, j, h[j].scenario, a)
    {
      HeldIsCapturedBefore(h, j, h[..j], h[j].scenario, a);
    }
  }

  lemma DeploysWereHeld(h: seq<Fact>, j: nat)
    requires Sound(h) && j < |h| && h[j].DeployBegan?
    ensures var before := h[..j];
      && (h[j].accounts != {} ==> before != [] && before[|before| - 1] == GuardrailApplied(h[j].scenario, h[j].accounts))
      && forall a :: a in h[j].accounts ==> InitHeld(before, h[j].scenario, a)
  {
    assert Allowed(h[..j], h[j]);
  }

  lemma HeldIsCapturedBefore(h: seq<Fact>, j: nat, before: seq<Fact>, scenario: string, a: Account)
    requires j <= |h| && before == h[..j] && InitHeld(before, scenario, a)
    ensures InitCapturedBefore(h, j, scenario, a)
  {
    var d := InitHeldWasCaptured(before, scenario, a);
    assert h[d] == before[d];
    assert forall k :: 0 <= k < j ==> h[k] == before[k];
  }

  lemma HeldExactly(h: seq<Fact>, scenario: string, a: Account)
    ensures InitHeld(h, scenario, a) <==> InitCapturedBefore(h, |h|, scenario, a)
  {
    if InitHeld(h, scenario, a) {
      var d := InitHeldWasCaptured(h, scenario, a);
    } else if InitCapturedBefore(h, |h|, scenario, a) {
      var d: nat :| d < |h| && h[d] == InitCaptured(scenario, a)
                    && forall k :: d < k < |h| ==> h[k] != BaselineDeleted(scenario, a, PreSetup);
      var m := LostWasDeleted(h, scenario, a, d);
    }
  }

  lemma SnapshotsAreFresh(h: seq<Fact>, j: nat)
    requires Sound(h) && j < |h| && h[j].SnapshotTaken?
    ensures SnapshotIsFresh(h, j)
  {
    SnapshotsFollowDeploys(h, j);
    var before := h[..j];
    var d := SnapshotFollowsDeploy(before, h[j].scenario);
    FreshAt(h, j, before, d);
  }

  lemma SnapshotsFollowDeploys(h: seq<Fact>, j: nat)
    requires Sound(h) && j < |h| && h[j].SnapshotTaken?
    ensures JustDeployed(h[..j], h[j].scenario)
  {
    assert Allowed(h[..j], h[j]);
  }

  lemma FreshAt(h: seq<Fact>, j: nat, before: seq<Fact>, d: nat)
    requires d < j < |h| && before == h[..j] && h[j].SnapshotTaken? && before[d] == DeployEnded(h[j].scenario, 0)
    requires forall k :: d < k < j ==> before[k].SnapshotTaken?
    ensures SnapshotIsFresh(h, j)
  {
    assert h[d] == before[d];
    assert forall k :: 0 <= k < j ==> h[k] == before[k];
  }

  lemma DeletionsAreEarned(h: seq<Fact>, j: nat)
    requires Sound(h) && j < |h| && h[j].BaselineDeleted?
    ensures DeletionIsEarned(h, j)
  {
    DeletedWereCleaned(h, j);
    var before := h[..j];
    var d := DeletionFollowsCleanup(before, h[j].scenario, h[j].account);
    assert h[d] == before[d];
    VerdictsRestOnReports(h, d, h[j].account);
    EarnedAt(h, j, before, d);
  }

  lemma EarnedAt(h: seq<Fact>, j: nat, before: seq<Fact>, d: nat)
    requires d < j < |h| && before == h[..j] && h[j].BaselineDeleted?
    requires h[d].CleanupJudged? && h[d].scenario == h[j].scenario && Restored(h, d, h[j].account)
    requires forall k :: d < k < j ==> before[k].BaselineDeleted?
    ensures DeletionIsEarned(h, j)
  {
    assert forall k :: 0 <= k < j ==> h[k] == before[k];
  }

  lemma DeletedWereCleaned(h: seq<Fact>, j: nat)
    requires Sound(h) && j < |h| && h[j].BaselineDeleted?
    ensures JustCleaned(h[..j], h[j].scenario, h[j].account)
  {
    assert Allowed(h[..j], h[j]);
  }

  /**
   The baseline rules hold of any sound history, at every position: a snapshot right after a
   deploy.sh that exited 0 (no trial began in between); a deploy.sh only with the init baseline
   of every account held and the region guardrail just applied; a deletion only right after a
   wholly clean cleanup that reported that very account clean.
   */
  lemma BaselinesAreSafe(h: seq<Fact>, j: nat)
    requires Sound(h) && j < |h|
    ensures h[j].SnapshotTaken? ==> SnapshotIsFresh(h, j)
    ensures h[j].DeployBegan? ==> DeployIsGuarded(h, j)
    ensures h[j].BaselineDeleted? ==> DeletionIsEarned(h, j)
  {
    if h[j].SnapshotTaken? {
      SnapshotsAreFresh(h, j);
    } else if h[j].BaselineDeleted? {
      DeletionsAreEarned(h, j);
    } else if h[j].DeployBegan? {
      DeploysAreGuarded(h, j);
    }
  }
}
