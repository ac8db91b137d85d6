/**
 Two-phase provisioning: create every account, then run the lifecycle of those that came back. A
 cancellation may land in any task; the task group then ends the phase for all of them. Tasks of a
 phase share nothing but the event stream, so each pair has its own log and the order of the tasks
 does not matter.
 */
module Provisioning {
  import opened Sequences
  import opened Wrappers
  import Quotas

  datatype Pair = Pair(scenario: Quotas.Scenario, tag: string)

  datatype Event = Start | AccountStart | RoleStart | QuotasStart | SnapshotStart | Cancel | End(succeeded: bool)

  datatype Batch = Batch(region: string, results: seq<Quotas.Status>)

  datatype Account = Account(
    scenario: string, tag: string, id: Option<string>, failed: bool,
    batches: seq<Batch>, submitFailures: nat, snapshot: Option<bool>)

  /** What AWS answers for one pair; `submit` gives None where a region's submit raised. */
  datatype Answers = Answers(
    account: Option<string>, role: bool, operationsRole: bool,
    submit: Quotas.Group -> Option<seq<Quotas.Status>>, snapshot: bool)

  predicate Provisioned(a: Account) {
    !a.failed && a.submitFailures == 0 && (a.snapshot.None? || a.snapshot.value)
  }

  // ---- the two phases of one pair ------------------------------------------------------------------

  function Created(p: Pair, o: Answers): Account {
    Account(p.scenario.name, p.tag, o.account, o.account.None?, [], 0, None)
  }

  /**
   How far a phase got with one pair: still waiting for its slot when the cancellation came,
   cancelled after so many events, or to its end.
   */
  datatype Course = Queued | Cut(emitted: nat) | Through

  predicate ValidCut(c: Course, plan: seq<Event>) {
    c.Cut? ==> 1 <= c.emitted <= |plan|
  }

  const CREATION_PLAN: seq<Event> := [Start, AccountStart]

  function Interrupted(plan: seq<Event>, emitted: nat): seq<Event>
    requires emitted <= |plan|
  {
    plan[..emitted] + [Cancel, End(false)]
  }

  /** Phase 1 ends a pair's log only if its creation failed or was cancelled. */
  function CreationEvents(o: Answers, c: Course): seq<Event>
    requires ValidCut(c, CREATION_PLAN)
  {
    match c
    case Queued => []
    case Cut(emitted) => Interrupted(CREATION_PLAN, emitted)
    case Through => CREATION_PLAN + (if o.account.None? then [End(false)] else [])
  }

  function ForTag(quotas: seq<Quotas.Quota>, tag: string): seq<Quotas.Quota> {
    if quotas == [] then [] else
      ForTag(quotas[..|quotas| - 1], tag) + (if quotas[|quotas| - 1].tag == tag then [quotas[|quotas| - 1]] else [])
  }

  /** Submit the groups in order; a failing one is counted and the rest go on. */
  function Submitted(a: Account, groups: seq<Quotas.Group>, o: Answers): Account {
    if groups == [] then a else
      var before := Submitted(a, groups[..|groups| - 1], o);
      var g := groups[|groups| - 1];
      match o.submit(g)
      case None => before.(submitFailures := before.submitFailures + 1)
      case Some(results) => before.(batches := before.batches + [Batch(g.region, results)])
  }

  function Cycled(scenario: Quotas.Scenario, a: Account, o: Answers): Account {
    if !o.role || !o.operationsRole then a.(failed := true)
    else Submitted(a, Quotas.Grouped(ForTag(scenario.quotas, a.tag)), o).(snapshot := Some(o.snapshot))
  }

  function CyclePlan(o: Answers): seq<Event> {
    if !o.role || !o.operationsRole then [RoleStart] else [RoleStart, QuotasStart, SnapshotStart]
  }

  /** Phase 2 always ends the log of a pair it began. */
  function CycleEvents(scenario: Quotas.Scenario, a: Account, o: Answers, c: Course): seq<Event>
    requires ValidCut(c, CyclePlan(o))
  {
    match c
    case Queued => []
    case Cut(emitted) => Interrupted(CyclePlan(o), emitted)
    case Through => CyclePlan(o) + [End(Provisioned(Cycled(scenario, a, o)))]
  }

  // ---- all pairs -------------------------------------------------------------------------------------

  /** The manifest indexed under a (scenario, tag) key: the last pair that carries it. */
  function ManifestOf(pairs: seq<Pair>, scenario: string, tag: string): Option<Quotas.Scenario> {
    if pairs == [] then None
    else
      var last := pairs[|pairs| - 1];
      if last.scenario.name == scenario && last.tag == tag then Some(last.scenario)
      else ManifestOf(pairs[..|pairs| - 1], scenario, tag)
  }

  lemma {:induction false} ManifestExists(pairs: seq<Pair>, i: nat)
    requires i < |pairs|
    ensures ManifestOf(pairs, pairs[i].scenario.name, pairs[i].tag).Some?
  {
    if i < |pairs| - 1 {
      ManifestExists(pairs[..|pairs| - 1], i);
    }
  }

  function Manifest(pairs: seq<Pair>, i: nat): Quotas.Scenario
    requires i < |pairs|
  {
    ManifestExists(pairs, i);
    ManifestOf(pairs, pairs[i].scenario.name, pairs[i].tag).value
  }

  function Final(pairs: seq<Pair>, o: nat -> Answers, i: nat): Account
    requires i < |pairs|
  {
    var created := Created(pairs[i], o(i));
    if created.failed then created else Cycled(Manifest(pairs, i), created, o(i))
  }

  /** A whole run's courses; `between`: a cancellation while the new accounts converge. */
  datatype Courses = Courses(creation: seq<Course>, between: bool, cycle: seq<Course>)

  predicate ValidCourses(pairs: seq<Pair>, o: nat -> Answers, r: Courses) {
    && |r.creation| == |r.cycle| == |pairs|
    && (forall i :: 0 <= i < |pairs| ==> ValidCut(r.creation[i], CREATION_PLAN) && ValidCut(r.cycle[i], CyclePlan(o(i))))
  }

  predicate AllThrough(courses: seq<Course>) {
    forall i :: 0 <= i < |courses| ==> courses[i].Through?
  }

  predicate ReachesCycle(r: Courses) {
    AllThrough(r.creation) && !r.between
  }

  /** Every task that ran went through: the run is not unwinding on a cancellation. */
  predicate Uncancelled(pairs: seq<Pair>, o: nat -> Answers, r: Courses)
    requires ValidCourses(pairs, o, r)
  {
    ReachesCycle(r) && forall i :: 0 <= i < |pairs| ==> o(i).account.None? || r.cycle[i].Through?
  }

  function Log(pairs: seq<Pair>, o: nat -> Answers, r: Courses, i: nat): seq<Event>
    requires i < |pairs| && ValidCourses(pairs, o, r)
  {
    var created := Created(pairs[i], o(i));
    CreationEvents(o(i), r.creation[i])
    + (if ReachesCycle(r) && !created.failed then CycleEvents(Manifest(pairs, i), created, o(i), r.cycle[i]) else [])
  }

  function Finals(pairs: seq<Pair>, o: nat -> Answers): seq<Account> {
    seq(|pairs|, i requires 0 <= i < |pairs| => Final(pairs, o, i))
  }

  function Logs(pairs: seq<Pair>, o: nat -> Answers, r: Courses): seq<seq<Event>>
    requires ValidCourses(pairs, o, r)
  {
    seq(|pairs|, i requires 0 <= i < |pairs| => Log(pairs, o, r, i))
  }

  /** The accounts that phase 1 created, or did not, in order. */
  function Part(accounts: seq<Account>, created: bool): seq<Account> {
    if accounts == [] then [] else
      var last := accounts[|accounts| - 1];
      Part(accounts[..|accounts| - 1], created) + (if last.id.Some? == created then [last] else [])
  }

  /** Phase 2's results first, then the accounts that failed in phase 1. */
  function Results(pairs: seq<Pair>, o: nat -> Answers): seq<Account> {
    Part(Finals(pairs, o), true) + Part(Finals(pairs, o), false)
  }

  // ---- conservation -------------------------------------------------------------------------------------

  function Keys(pairs: seq<Pair>): seq<(string, string)> {
    seq(|pairs|, i requires 0 <= i < |pairs| => (pairs[i].scenario.name, pairs[i].tag))
  }

  function KeysOf(accounts: seq<Account>): seq<(string, string)> {
    seq(|accounts|, i requires 0 <= i < |accounts| => (accounts[i].scenario, accounts[i].tag))
  }

  lemma {:induction false} SubmittedKeepsKey(a: Account, groups: seq<Quotas.Group>, o: Answers)
    ensures Submitted(a, groups, o).scenario == a.scenario && Submitted(a, groups, o).tag == a.tag
    ensures Submitted(a, groups, o).id == a.id && Submitted(a, groups, o).failed == a.failed
    ensures |Submitted(a, groups, o).batches| + Submitted(a, groups, o).submitFailures
         == |a.batches| + a.submitFailures + |groups|
  {
    if groups != [] {
      SubmittedKeepsKey(a, groups[..|groups| - 1], o);
    }
  }

  lemma FinalKeepsKey(pairs: seq<Pair>, o: nat -> Answers, i: nat)
    requires i < |pairs|
    ensures (Final(pairs, o, i).scenario, Final(pairs, o, i).tag) == (pairs[i].scenario.name, pairs[i].tag)
    ensures Final(pairs, o, i).id == o(i).account
  {
    var created := Created(pairs[i], o(i));
    SubmittedKeepsKey(created, Quotas.Grouped(ForTag(Manifest(pairs, i).quotas, created.tag)), o(i));
  }

  lemma KeysOfSum(xs: seq<Account>, ys: seq<Account>)
    ensures KeysOf(xs + ys) == KeysOf(xs) + KeysOf(ys)
  {
  }

  lemma KeysOfOne(xs: seq<Account>, a: Account)
    ensures multiset(KeysOf(xs + [a])) == multiset(KeysOf(xs)) + multiset{(a.scenario, a.tag)}
  {
    assert KeysOf(xs + [a]) == KeysOf(xs) + [(a.scenario, a.tag)];
  }

  lemma {:induction false} PartsKeepKeys(accounts: seq<Account>)
    ensures multiset(KeysOf(Part(accounts, true))) + multiset(KeysOf(Part(accounts, false))) == multiset(KeysOf(accounts))
  {
    if accounts != [] {
      var front, last := accounts[..|accounts| - 1], accounts[|accounts| - 1];
      PartsKeepKeys(front);
      KeysOfOne(Part(front, last.id.Some?), last);
      KeysOfOne(front, last);
      assert accounts == front + [last];
      assert Part(accounts, !last.id.Some?) == Part(front, !last.id.Some?);
    }
  }

  /** The returned list has exactly one outcome per (scenario, tag) pair. */
  lemma OneOutcomePerPair(pairs: seq<Pair>, o: nat -> Answers)
    ensures multiset(KeysOf(Results(pairs, o))) == multiset(Keys(pairs))
    ensures |Results(pairs, o)| == |pairs|
  {
    var finals := Finals(pairs, o);
    PartsKeepKeys(finals);
    KeysOfSum(Part(finals, true), Part(finals, false));
    forall i | 0 <= i < |pairs|
      ensures KeysOf(finals)[i] == Keys(pairs)[i]
    {
      FinalKeepsKey(pairs, o, i);
    }
    assert KeysOf(finals) == Keys(pairs);
    assert |multiset(KeysOf(Results(pairs, o)))| == |multiset(Keys(pairs))|;
  }

  /** The pair's account came back in phase 1, but phase 2 never began with it. */
  predicate LeftBetween(o: nat -> Answers, r: Courses, i: nat)
    requires i < |r.creation| == |r.cycle|
  {
    r.creation[i].Through? && o(i).account.Some? && (!ReachesCycle(r) || r.cycle[i].Queued?)
  }

  predicate WasCut(o: nat -> Answers, r: Courses, i: nat)
    requires i < |r.creation| == |r.cycle|
  {
    r.creation[i].Cut? || (ReachesCycle(r) && o(i).account.Some? && r.cycle[i].Cut?)
  }

  /** START opens a log and comes nowhere else; END comes at most once, last; CANCEL at most once, just before END. */
  predicate WellFormed(log: seq<Event>) {
    && (forall k :: 0 <= k < |log| ==> (log[k].Start? <==> k == 0))
    && (forall k :: 0 <= k < |log| ==> (log[k].End? ==> k == |log| - 1))
    && (forall k :: 0 <= k < |log| ==> (log[k].Cancel? ==> k == |log| - 2 && log[|log| - 1] == End(false)))
  }

  predicate Ends(log: seq<Event>) {
    log != [] && log[|log| - 1].End?
  }

  lemma CreationIsWellFormed(o: Answers, c: Course)
    requires ValidCut(c, CREATION_PLAN)
    ensures WellFormed(CreationEvents(o, c))
    ensures Ends(CreationEvents(o, c)) <==> c.Cut? || (c.Through? && o.account.None?)
    ensures Cancel in CreationEvents(o, c) <==> c.Cut?
  {
    if c.Cut? {
      var log := CreationEvents(o, c);
      assert log[|log| - 2] == Cancel;
    }
  }

  lemma CycleIsWellFormed(scenario: Quotas.Scenario, a: Account, o: Answers, c: Course)
    requires ValidCut(c, CyclePlan(o))
    ensures var log := CREATION_PLAN + CycleEvents(scenario, a, o, c);
      && WellFormed(log) && (Ends(log) <==> !c.Queued?) && (Cancel in log <==> c.Cut?)
      && (End(true) in log <==> c.Through? && Provisioned(Cycled(scenario, a, o)))
  {
    var log := CREATION_PLAN + CycleEvents(scenario, a, o, c);
    if c.Cut? {
      assert log[|log| - 2] == Cancel;
    }
    if c.Through? {
      assert log[|log| - 1] == End(Provisioned(Cycled(scenario, a, o)));
    }
  }

  /**
   Across both phases, with cancellations anywhere: a log that begins at all opens with its one
   START; it gets exactly one END, last, unless the pair was left between the phases, and then
   none; CANCEL comes just before END, exactly in the pairs a cancellation cut; and END says
   succeeded exactly for a pair that went through and was provisioned.
   */
  lemma EachLogCloses(pairs: seq<Pair>, o: nat -> Answers, r: Courses, i: nat)
    requires i < |pairs| && ValidCourses(pairs, o, r)
    ensures var log := Log(pairs, o, r, i);
      && WellFormed(log)
      && (log == [] <==> r.creation[i].Queued?)
      && (Ends(log) <==> log != [] && !LeftBetween(o, r, i))
      && (Cancel in log <==> WasCut(o, r, i))
      && (End(true) in log <==> ReachesCycle(r) && o(i).account.Some? && r.cycle[i].Through?
                                && Provisioned(Final(pairs, o, i)))
  {
    var created := Created(pairs[i], o(i));
    CreationIsWellFormed(o(i), r.creation[i]);
    if ReachesCycle(r) && !created.failed {
      assert CreationEvents(o(i), r.creation[i]) == CREATION_PLAN;
      CycleIsWellFormed(Manifest(pairs, i), created, o(i), r.cycle[i]);
    } else {
      var log := CreationEvents(o(i), r.creation[i]);
      assert Log(pairs, o, r, i) == log;
      assert forall k :: 0 <= k < |log| ==> log[k] != End(true);
    }
  }

  /** In an uncancelled run each step's event is there exactly if the steps before it came back. */
  lemma EventsTellTheSteps(pairs: seq<Pair>, o: nat -> Answers, r: Courses, i: nat)
    requires i < |pairs| && ValidCourses(pairs, o, r) && Uncancelled(pairs, o, r)
    ensures var log := Log(pairs, o, r, i); var roles := o(i).account.Some? && o(i).role && o(i).operationsRole;
      && [Start, AccountStart] <= log
      && (RoleStart in log <==> o(i).account.Some?)
      && (QuotasStart in log <==> roles) && (SnapshotStart in log <==> roles)
  {
    var log := Log(pairs, o, r, i);
    assert log[..2] == [Start, AccountStart];
    if o(i).account.Some? {
      assert log[2] == RoleStart;
      if o(i).role && o(i).operationsRole {
        assert log[3] == QuotasStart && log[4] == SnapshotStart;
      }
    }
  }

  /** A sibling's cancellation in phase 1 leaves every pair whose account came back with a START and no END. */
  lemma SiblingCancelLeavesOpen(pairs: seq<Pair>, o: nat -> Answers, r: Courses, i: nat, j: nat)
    requires i < |pairs| && j < |pairs| && ValidCourses(pairs, o, r)
    requires !r.creation[j].Through? && r.creation[i].Through? && o(i).account.Some?
    ensures Log(pairs, o, r, i) == [Start, AccountStart]
  {
    assert !AllThrough(r.creation);
  }

  function CountProvisioned(accounts: seq<Account>): nat {
    if accounts == [] then 0 else
      CountProvisioned(accounts[..|accounts| - 1]) + (if Provisioned(accounts[|accounts| - 1]) then 1 else 0)
  }

  /** How many logs end in a success. */
  function CountSucceeded(logs: seq<seq<Event>>): nat {
    if logs == [] then 0 else
      CountSucceeded(logs[..|logs| - 1]) + (if End(true) in logs[|logs| - 1] then 1 else 0)
  }

  lemma {:induction false} CountOfSum(xs: seq<Account>, ys: seq<Account>)
    ensures CountProvisioned(xs + ys) == CountProvisioned(xs) + CountProvisioned(ys)
  {
    if ys == [] {
      assert xs + ys == xs;
    } else {
      assert (xs + ys)[..|xs + ys| - 1] == xs + ys[..|ys| - 1];
      CountOfSum(xs, ys[..|ys| - 1]);
    }
  }

  lemma CountOfOne(xs: seq<Account>, a: Account)
    ensures CountProvisioned(xs + [a]) == CountProvisioned(xs) + (if Provisioned(a) then 1 else 0)
  {
    assert (xs + [a])[..|xs|] == xs;
  }

  lemma {:induction false} PartsKeepCount(accounts: seq<Account>)
    ensures CountProvisioned(Part(accounts, true)) + CountProvisioned(Part(accounts, false)) == CountProvisioned(accounts)
  {
    if accounts != [] {
      var front, last := accounts[..|accounts| - 1], accounts[|accounts| - 1];
      PartsKeepCount(front);
      CountOfOne(Part(front, last.id.Some?), last);
      assert Part(accounts, last.id.Some?) == Part(front, last.id.Some?) + [last];
      assert Part(accounts, !last.id.Some?) == Part(front, !last.id.Some?);
    }
  }

  lemma FailedIsNotProvisioned(pairs: seq<Pair>, o: nat -> Answers, i: nat)
    requires i < |pairs| && o(i).account.None?
    ensures !Provisioned(Final(pairs, o, i))
  {
  }

  lemma LogEndsSo(pairs: seq<Pair>, o: nat -> Answers, r: Courses, i: nat)
    requires i < |pairs| && ValidCourses(pairs, o, r) && Uncancelled(pairs, o, r)
    ensures End(true) in Log(pairs, o, r, i) <==> Provisioned(Final(pairs, o, i))
  {
    EachLogCloses(pairs, o, r, i);
    if o(i).account.None? {
      FailedIsNotProvisioned(pairs, o, i);
    }
  }

  lemma {:induction false} CountsAgree(logs: seq<seq<Event>>, accounts: seq<Account>)
    requires |logs| == |accounts|
    requires forall i :: 0 <= i < |logs| ==> (End(true) in logs[i] <==> Provisioned(accounts[i]))
    ensures CountSucceeded(logs) == CountProvisioned(accounts)
  {
    if logs != [] {
      CountsAgree(logs[..|logs| - 1], accounts[..|accounts| - 1]);
    }
  }

  /** In an uncancelled run the number of END events with `succeeded` set is the summary's n_provisioned. */
  lemma SucceededEndsAreProvisioned(pairs: seq<Pair>, o: nat -> Answers, r: Courses)
    requires ValidCourses(pairs, o, r) && Uncancelled(pairs, o, r)
    ensures CountSucceeded(Logs(pairs, o, r)) == CountProvisioned(Results(pairs, o))
  {
    var finals := Finals(pairs, o);
    forall i | 0 <= i < |pairs|
      ensures End(true) in Logs(pairs, o, r)[i] <==> Provisioned(finals[i])
    {
      LogEndsSo(pairs, o, r, i);
    }
    CountsAgree(Logs(pairs, o, r), finals);
    PartsKeepCount(finals);
    CountOfSum(Part(finals, true), Part(finals, false));
  }

  /** Phase 2 has ended for the first `n` pairs. */
  function Halfway(pairs: seq<Pair>, o: nat -> Answers, r: Courses, n: nat): seq<seq<Event>>
    requires ValidCourses(pairs, o, r)
  {
    seq(|pairs|, i requires 0 <= i < |pairs| => if i < n then Log(pairs, o, r, i) else CreationEvents(o(i), r.creation[i]))
  }

  lemma HalfwayMoves(pairs: seq<Pair>, o: nat -> Answers, r: Courses, n: nat)
    requires ValidCourses(pairs, o, r) && n < |pairs|
    ensures Halfway(pairs, o, r, n)[n := Logs(pairs, o, r)[n]] == Halfway(pairs, o, r, n + 1)
  {
  }

  /** Each of these outcomes is final, unless a cancellation took its place. */
  predicate SoFar(pairs: seq<Pair>, o: nat -> Answers, r: Courses, finals: seq<Account>)
    requires ValidCourses(pairs, o, r)
  {
    |finals| <= |pairs|
    && forall k :: 0 <= k < |finals| && (o(k).account.None? || r.cycle[k].Through?) ==> finals[k] == Finals(pairs, o)[k]
  }

  function CameOut(accounts: seq<Account>, created: bool): nat -> bool {
    (n: nat) => n < |accounts| && accounts[n].id.Some? == created
  }

  lemma PartOfMore(accounts: seq<Account>, a: Account, created: bool)
    ensures Part(accounts + [a], created) == Part(accounts, created) + (if a.id.Some? == created then [a] else [])
  {
    assert (accounts + [a])[..|accounts|] == accounts;
  }

  lemma CameOutOfMore(front: seq<Account>, a: Account, created: bool)
    ensures forall n: nat :: n < |front| ==> (CameOut(front, created)(n) <==> CameOut(front + [a], created)(n))
    ensures CameOut(front + [a], created)(|front|) <==> a.id.Some? == created
  {
    assert (front + [a])[|front|] == a;
  }

  lemma PartOneMore(front: seq<Account>, a: Account, created: bool, before: seq<nat>) returns (idx: seq<nat>)
    requires Selects(Part(front, created), front, before, CameOut(front, created))
    ensures Selects(Part(front + [a], created), front + [a], idx, CameOut(front + [a], created))
  {
    idx := if a.id.Some? == created then before + [|front|] else before;
    PartOfMore(front, a, created);
    CameOutOfMore(front, a, created);
    SelectsMore(Part(front, created), front, before, CameOut(front, created), a, CameOut(front + [a], created));
  }

  lemma {:induction false} PartIsPicked(accounts: seq<Account>, created: bool) returns (idx: seq<nat>)
    ensures Selects(Part(accounts, created), accounts, idx, CameOut(accounts, created))
  {
    if accounts == [] {
      idx := [];
    } else {
      var front, last := accounts[..|accounts| - 1], accounts[|accounts| - 1];
      var before := PartIsPicked(front, created);
      idx := PartOneMore(front, last, created, before);
      assert accounts == front + [last];
    }
  }

  /** The outcomes come back with those whose account was created first, then the others, each in the order of the pairs. */
  lemma ResultsInOrder(pairs: seq<Pair>, o: nat -> Answers) returns (created: seq<nat>, failed: seq<nat>)
    ensures Lists(created, |pairs|, (n: nat) => o(n).account.Some?) && Lists(failed, |pairs|, (n: nat) => o(n).account.None?)
    ensures Results(pairs, o) == Picked(Finals(pairs, o), created) + Picked(Finals(pairs, o), failed)
  {
    var finals := Finals(pairs, o);
    created := PartIsPicked(finals, true);
    failed := PartIsPicked(finals, false);
    forall n: nat | n < |pairs|
      ensures CameOut(finals, true)(n) <==> o(n).account.Some?
      ensures CameOut(finals, false)(n) <==> o(n).account.None?
    {
      FinalKeepsKey(pairs, o, n);
    }
    ListsSame(created, |pairs|, CameOut(finals, true), (n: nat) => o(n).account.Some?);
    ListsSame(failed, |pairs|, CameOut(finals, false), (n: nat) => o(n).account.None?);
  }

  // ---- what a pair submits -----------------------------------------------------------------------------

  /** The increases of all the groups. */
  function Increases(groups: seq<Quotas.Group>): seq<Quotas.Quota> {
    if groups == [] then [] else groups[0].increases + Increases(groups[1..])
  }

  /** How often a quota is declared for the tag: as often as declared, if it carries the tag. */
  ghost function Declared(quotas: seq<Quotas.Quota>, tag: string, q: Quotas.Quota): nat {
    if q.tag == tag then multiset(quotas)[q] else 0
  }

  lemma {:induction false} ForTagKeeps(quotas: seq<Quotas.Quota>, tag: string)
    ensures forall q :: multiset(ForTag(quotas, tag))[q] == Declared(quotas, tag, q)
  {
    if quotas != [] {
      ForTagKeeps(quotas[..|quotas| - 1], tag);
      assert quotas == quotas[..|quotas| - 1] + [quotas[|quotas| - 1]];
    }
  }

  lemma {:induction false} AddedIncreases(groups: seq<Quotas.Group>, q: Quotas.Quota)
    ensures multiset(Increases(Quotas.Added(groups, q))) == multiset(Increases(groups)) + multiset{q}
    decreases |groups|
  {
    if groups != [] && !(groups[0].tag == q.tag && groups[0].region == q.region) {
      AddedIncreases(groups[1..], q);
    }
  }

  lemma MultisetOfMore(front: seq<Quotas.Quota>, last: Quotas.Quota)
    ensures multiset(front + [last]) == multiset(front) + multiset{last}
  {
  }

  lemma {:induction false} GroupedIncreases(quotas: seq<Quotas.Quota>)
    ensures multiset(Increases(Quotas.Grouped(quotas))) == multiset(quotas)
  {
    if quotas != [] {
      var front, last := quotas[..|quotas| - 1], quotas[|quotas| - 1];
      GroupedIncreases(front);
      AddedIncreases(Quotas.Grouped(front), last);
      MultisetOfMore(front, last);
      assert front + [last] == quotas;
    }
  }

  /** One group a region, each with quotas of its own region, and at least one. */
  predicate OnePerRegion(groups: seq<Quotas.Group>, tag: string) {
    && (forall i :: 0 <= i < |groups| ==> groups[i].tag == tag && groups[i].increases != [])
    && (forall i, j :: 0 <= i < |groups| && 0 <= j < |groups[i].increases| ==>
          groups[i].increases[j].region == groups[i].region && groups[i].increases[j].tag == tag)
    && (forall i, j :: 0 <= i < j < |groups| ==> groups[i].region != groups[j].region)
  }

  lemma {:induction false} AddedHasNoEmpty(groups: seq<Quotas.Group>, q: Quotas.Quota)
    requires forall g :: g in groups ==> g.increases != [] && g.tag == q.tag
    ensures forall g :: g in Quotas.Added(groups, q) ==> g.increases != [] && g.tag == q.tag
    decreases |groups|
  {
    if groups != [] && !(groups[0].tag == q.tag && groups[0].region == q.region) {
      AddedHasNoEmpty(groups[1..], q);
    }
  }

  lemma {:induction false} GroupedHasNoEmpty(quotas: seq<Quotas.Quota>, tag: string)
    requires forall q :: q in quotas ==> q.tag == tag
    ensures forall g :: g in Quotas.Grouped(quotas) ==> g.increases != [] && g.tag == tag
  {
    if quotas != [] {
      GroupedHasNoEmpty(quotas[..|quotas| - 1], tag);
      AddedHasNoEmpty(Quotas.Grouped(quotas[..|quotas| - 1]), quotas[|quotas| - 1]);
    }
  }

  lemma GroupedIsOnePerRegion(quotas: seq<Quotas.Quota>, tag: string)
    requires forall q :: q in quotas ==> q.tag == tag
    ensures OnePerRegion(Quotas.Grouped(quotas), tag)
  {
    var groups := Quotas.Grouped(quotas);
    Quotas.GroupsAreKeyed(quotas);
    GroupedHasNoEmpty(quotas, tag);
    forall i | 0 <= i < |groups|
      ensures groups[i].tag == tag && groups[i].increases != []
    {
      assert groups[i] in groups;
    }
  }

  type Submits = seq<Option<seq<Quotas.Status>>>

  /** What the submits of the groups answered, in order. */
  function Answered(groups: seq<Quotas.Group>, o: Answers): (r: Submits)
    ensures |r| == |groups|
  {
    seq(|groups|, n requires 0 <= n < |groups| => o.submit(groups[n]))
  }

  function CameBack(results: Submits): nat -> bool {
    (n: nat) => n < |results| && results[n].Some?
  }

  /** The batches recorded are those of the groups at `came`, in order, with their results. */
  predicate Records(batches: seq<Batch>, groups: seq<Quotas.Group>, results: Submits, came: seq<nat>)
    requires |results| == |groups|
  {
    |batches| == |came| && forall k :: 0 <= k < |came| ==>
      came[k] < |groups| && results[came[k]].Some? && batches[k] == Batch(groups[came[k]].region, results[came[k]].value)
  }

  lemma RecordsMore(batches: seq<Batch>, groups: seq<Quotas.Group>, results: Submits, came: seq<nat>,
                    g: Quotas.Group, r: Option<seq<Quotas.Status>>)
    requires |results| == |groups| && Records(batches, groups, results, came)
    ensures Records(batches, groups + [g], results + [r], came)
    ensures r.Some? ==> Records(batches + [Batch(g.region, r.value)], groups + [g], results + [r], came + [|groups|])
  {
  }

  lemma SubmittedOfMore(a: Account, front: seq<Quotas.Group>, g: Quotas.Group, o: Answers)
    ensures var before := Submitted(a, front, o);
      Submitted(a, front + [g], o)
      == match o.submit(g)
         case None => before.(submitFailures := before.submitFailures + 1)
         case Some(results) => before.(batches := before.batches + [Batch(g.region, results)])
  {
    assert (front + [g])[..|front|] == front;
  }

  /** The recorded batches, the counted failures and the submits that came back fit together. */
  ghost predicate Accounted(a: Account, groups: seq<Quotas.Group>, results: Submits, came: seq<nat>) {
    && |results| == |groups| && Lists(came, |groups|, CameBack(results))
    && Records(a.batches, groups, results, came) && a.submitFailures + |came| == |groups|
  }

  lemma CameBackOfMore(results: Submits, r: Option<seq<Quotas.Status>>)
    ensures forall n: nat :: n < |results| ==> (CameBack(results)(n) <==> CameBack(results + [r])(n))
    ensures CameBack(results + [r])(|results|) <==> r.Some?
  {
    assert (results + [r])[|results|] == r;
  }

  lemma CameMore(came: seq<nat>, results: Submits, r: Option<seq<Quotas.Status>>)
    requires Lists(came, |results|, CameBack(results))
    ensures Lists(if r.Some? then came + [|results|] else came, |results| + 1, CameBack(results + [r]))
  {
    CameBackOfMore(results, r);
    ListsGrow(came, |results|, CameBack(results), CameBack(results + [r]));
  }

  lemma AccountedMore(a: Account, groups: seq<Quotas.Group>, results: Submits, came: seq<nat>, g: Quotas.Group, r: Option<seq<Quotas.Status>>)
    requires Accounted(a, groups, results, came)
    ensures r.None? ==> Accounted(a.(submitFailures := a.submitFailures + 1), groups + [g], results + [r], came)
    ensures r.Some? ==>
      Accounted(a.(batches := a.batches + [Batch(g.region, r.value)]), groups + [g], results + [r], came + [|groups|])
  {
    CameMore(came, results, r);
    RecordsMore(a.batches, groups, results, came, g, r);
  }

  lemma SubmittedOneMore(a: Account, front: seq<Quotas.Group>, g: Quotas.Group, o: Answers, before: seq<nat>) returns (came: seq<nat>)
    requires Accounted(Submitted(a, front, o), front, Answered(front, o), before)
    ensures Accounted(Submitted(a, front + [g], o), front + [g], Answered(front + [g], o), came)
  {
    came := if o.submit(g).Some? then before + [|front|] else before;
    AccountedMore(Submitted(a, front, o), front, Answered(front, o), before, g, o.submit(g));
    SubmittedOfMore(a, front, g, o);
    AnsweredOfMore(front, g, o);
  }

  lemma AnsweredOfMore(front: seq<Quotas.Group>, g: Quotas.Group, o: Answers)
    ensures Answered(front + [g], o) == Answered(front, o) + [o.submit(g)]
  {
  }

  lemma {:induction false} SubmittedOutcome(a: Account, groups: seq<Quotas.Group>, o: Answers) returns (came: seq<nat>)
    requires a.batches == [] && a.submitFailures == 0
    ensures Accounted(Submitted(a, groups, o), groups, Answered(groups, o), came)
  {
    if groups == [] {
      came := [];
    } else {
      var front, last := groups[..|groups| - 1], groups[|groups| - 1];
      var before := SubmittedOutcome(a, front, o);
      came := SubmittedOneMore(a, front, last, o, before);
      assert groups == front + [last];
    }
  }

  lemma AllCame(groups: seq<Quotas.Group>, o: Answers, came: seq<nat>)
    requires Lists(came, |groups|, CameBack(Answered(groups, o)))
    ensures |came| == |groups| <==> forall n :: 0 <= n < |groups| ==> o.submit(groups[n]).Some?
  {
    AllListed(came, |groups|, CameBack(Answered(groups, o)));
    assert forall n: nat :: n < |groups| ==> (CameBack(Answered(groups, o))(n) <==> o.submit(groups[n]).Some?);
  }

  /**
   What a pair that reaches its quotas submits: groups that together hold every quota its manifest
   declares for its tag, as often as declared, and no other; one group a region. It records the
   batches of those whose submit came back, in order and with their results, and counts the rest as
   failures; and it is provisioned exactly if all came back and its baseline was captured.
   */
  lemma SubmitsItsQuotas(pairs: seq<Pair>, o: nat -> Answers, i: nat) returns (groups: seq<Quotas.Group>, came: seq<nat>)
    requires i < |pairs| && o(i).account.Some? && o(i).role && o(i).operationsRole
    ensures forall q :: multiset(Increases(groups))[q] == Declared(Manifest(pairs, i).quotas, pairs[i].tag, q)
    ensures OnePerRegion(groups, pairs[i].tag)
    ensures Lists(came, |groups|, CameBack(Answered(groups, o(i))))
    ensures var final := Final(pairs, o, i);
      && Records(final.batches, groups, Answered(groups, o(i)), came) && final.submitFailures == |groups| - |came|
      && !final.failed && final.id == o(i).account && final.snapshot == Some(o(i).snapshot)
      && (Provisioned(final) <==> o(i).snapshot && forall n :: 0 <= n < |groups| ==> o(i).submit(groups[n]).Some?)
  {
    var created := Created(pairs[i], o(i));
    var quotas := ForTag(Manifest(pairs, i).quotas, created.tag);
    groups := Quotas.Grouped(quotas);
    GroupedIncreases(quotas);
    ForTagKeeps(Manifest(pairs, i).quotas, created.tag);
    forall q | q in quotas
      ensures q.tag == created.tag
    {
      assert multiset(quotas)[q] == Declared(Manifest(pairs, i).quotas, created.tag, q);
    }
    GroupedIsOnePerRegion(quotas, created.tag);
    came := SubmittedOutcome(created, groups, o(i));
    SubmittedKeepsKey(created, groups, o(i));
    AllCame(groups, o(i), came);
  }

  /** A pair without its account or one of its roles submits nothing and is not provisioned. */
  lemma FailedPairsSubmitNothing(pairs: seq<Pair>, o: nat -> Answers, i: nat)
    requires i < |pairs| && (o(i).account.None? || !o(i).role || !o(i).operationsRole)
    ensures var final := Final(pairs, o, i);
      final.failed && final.batches == [] && final.submitFailures == 0 && final.snapshot.None? && !Provisioned(final)
  {
  }

  /** A pair's manifest is that of the last pair with its scenario name and tag. */
  lemma {:induction false} ManifestIsTheLast(pairs: seq<Pair>, i: nat) returns (j: nat)
    requires i < |pairs|
    ensures i <= j < |pairs| && pairs[j].scenario == Manifest(pairs, i)
    ensures pairs[j].scenario.name == pairs[i].scenario.name && pairs[j].tag == pairs[i].tag
    ensures forall k :: j < k < |pairs| ==> pairs[k].scenario.name != pairs[i].scenario.name || pairs[k].tag != pairs[i].tag
  {
    var last := pairs[|pairs| - 1];
    if last.scenario.name == pairs[i].scenario.name && last.tag == pairs[i].tag {
      j := |pairs| - 1;
    } else {
      j := ManifestIsTheLast(pairs[..|pairs| - 1], i);
    }
  }

  // ---- the provisioner ---------------------------------------------------------------------------------

  class Provisioner {
    const pairs: seq<Pair>
    var logs: seq<seq<Event>>

    constructor (pairs: seq<Pair>)
      ensures this.pairs == pairs && logs == seq(|pairs|, i => [])
    {
      this.pairs := pairs;
      logs := seq(|pairs|, i => []);
    }

    method Emit(i: nat, event: Event)
      requires i < |logs|
      modifies this`logs
      ensures logs == old(logs)[i := old(logs)[i] + [event]]
    {
      logs := logs[i := logs[i] + [event]];
    }

    /** Emit up to `n` events of a plan. */
    method EmitEach(i: nat, plan: seq<Event>, n: nat)
      requires i < |logs| && n <= |plan|
      modifies this`logs
      ensures logs == old(logs)[i := old(logs)[i] + plan[..n]]
    {
      for k := 0 to n
        invariant |logs| == |old(logs)| && logs[i] == old(logs)[i] + plan[..k]
        invariant forall j :: 0 <= j < |logs| && j != i ==> logs[j] == old(logs)[j]
      {
        Emit(i, plan[k]);
        assert plan[..k + 1] == plan[..k] + [plan[k]];
      }
    }

    /** A course that is cut records the cancellation; the finally clause ends a failed or cancelled pair. */
    method CreateAccount(i: nat, o: Answers, c: Course) returns (account: Account)
      requires i < |pairs| == |logs| && ValidCut(c, CREATION_PLAN)
      modifies this`logs
      ensures c.Through? ==> account == Created(pairs[i], o)
      ensures logs == old(logs)[i := old(logs)[i] + CreationEvents(o, c)]
    {
      account := Account(pairs[i].scenario.name, pairs[i].tag, None, false, [], 0, None);
      if c.Queued? {
        assert old(logs)[i] + [] == old(logs)[i];
        return;
      }
      var cancelled := false;
      if c.Cut? {
        EmitEach(i, CREATION_PLAN, c.emitted);
        cancelled := true;
        Emit(i, Cancel);
      } else {
        EmitEach(i, CREATION_PLAN, |CREATION_PLAN|);
        account := account.(id := o.account, failed := o.account.None?);
      }
      if account.failed || cancelled {
        Emit(i, End(false));
      }
      assert logs[i] == old(logs)[i] + CreationEvents(o, c);
    }

    method SubmitQuotas(created: Account, quotas: seq<Quotas.Quota>, o: Answers) returns (account: Account)
      ensures account == Submitted(created, Quotas.Grouped(ForTag(quotas, created.tag)), o)
    {
      account := created;
      var groups := Quotas.GroupQuotas(ForTag(quotas, created.tag));
      for g := 0 to |groups|
        invariant account == Submitted(created, groups[..g], o)
      {
        assert groups[..g + 1][..g] == groups[..g];
        var submit := o.submit(groups[g]);
        if submit.None? {
          account := account.(submitFailures := account.submitFailures + 1);
        } else {
          account := account.(batches := account.batches + [Batch(groups[g].region, submit.value)]);
        }
      }
      assert groups[..|groups|] == groups;
    }

    method ProvisionAccountLifecycle(i: nat, created: Account, o: Answers, c: Course) returns (account: Account)
      requires i < |pairs| == |logs| && created == Created(pairs[i], o) && !created.failed && ValidCut(c, CyclePlan(o))
      modifies this`logs
      ensures c.Through? ==> account == Cycled(Manifest(pairs, i), created, o)
      ensures logs == old(logs)[i := old(logs)[i] + CycleEvents(Manifest(pairs, i), created, o, c)]
    {
      account := created;
      if c.Queued? {
        assert old(logs)[i] + [] == old(logs)[i];
        return;
      }
      var cancelled := false;
      if c.Cut? {
        EmitEach(i, CyclePlan(o), c.emitted);
        cancelled := true;
        Emit(i, Cancel);
      } else {
        EmitEach(i, CyclePlan(o), |CyclePlan(o)|);
        if !o.role || !o.operationsRole {
          account := account.(failed := true);
        } else {
          account := SubmitQuotas(created, Manifest(pairs, i).quotas, o);
          account := account.(snapshot := Some(o.snapshot));
        }
      }
      Emit(i, End(Provisioned(account) && !cancelled));
      assert logs[i] == old(logs)[i] + CycleEvents(Manifest(pairs, i), created, o, c);
    }

    /** Phase 1: every task settles before the group raises. */
    method CreateAll(o: nat -> Answers, r: Courses) returns (creation: seq<Account>)
      requires logs == seq(|pairs|, i => []) && ValidCourses(pairs, o, r)
      modifies this`logs
      ensures |creation| == |pairs|
      ensures forall i :: 0 <= i < |pairs| && r.creation[i].Through? ==> creation[i] == Created(pairs[i], o(i))
      ensures |logs| == |pairs| && forall i :: 0 <= i < |pairs| ==> logs[i] == CreationEvents(o(i), r.creation[i])
    {
      creation := [];
      for i := 0 to |pairs|
        invariant |creation| == i && |logs| == |pairs|
        invariant forall k :: 0 <= k < i && r.creation[k].Through? ==> creation[k] == Created(pairs[k], o(k))
        invariant forall k :: 0 <= k < i ==> logs[k] == CreationEvents(o(k), r.creation[k])
        invariant forall k :: i <= k < |pairs| ==> logs[k] == []
      {
        var account := CreateAccount(i, o(i), r.creation[i]);
        creation := creation + [account];
      }
    }

    method CycleOne(i: nat, created: Account, o: nat -> Answers, r: Courses) returns (account: Account)
      requires i < |pairs| == |logs| && ValidCourses(pairs, o, r) && ReachesCycle(r)
      requires created == Created(pairs[i], o(i)) && logs[i] == CreationEvents(o(i), r.creation[i])
      modifies this`logs
      ensures o(i).account.None? || r.cycle[i].Through? ==> account == Finals(pairs, o)[i]
      ensures logs == old(logs)[i := Logs(pairs, o, r)[i]]
    {
      account := created;
      if !created.failed {
        account := ProvisionAccountLifecycle(i, created, o(i), r.cycle[i]);
      }
      assert logs[i] == Log(pairs, o, r, i);
    }

    /** Phase 2 for the accounts that came back; the others pass through. */
    method CycleAll(creation: seq<Account>, o: nat -> Answers, r: Courses) returns (finals: seq<Account>)
      requires ValidCourses(pairs, o, r) && ReachesCycle(r)
      requires |creation| == |pairs| && forall i :: 0 <= i < |pairs| ==> creation[i] == Created(pairs[i], o(i))
      requires |logs| == |pairs| && forall i :: 0 <= i < |pairs| ==> logs[i] == CreationEvents(o(i), r.creation[i])
      modifies this`logs
      ensures Uncancelled(pairs, o, r) ==> finals == Finals(pairs, o)
      ensures logs == Logs(pairs, o, r)
    {
      finals := [];
      for i := 0 to |pairs|
        invariant |finals| == i && SoFar(pairs, o, r, finals)
        invariant logs == Halfway(pairs, o, r, i)
      {
        var account := CycleOne(i, creation[i], o, r);
        finals := finals + [account];
        HalfwayMoves(pairs, o, r, i);
      }
    }

    /** Split by whether phase 1 came back, each part in order. */
    method Split(accounts: seq<Account>) returns (done: seq<Account>, failed: seq<Account>)
      ensures done == Part(accounts, true) && failed == Part(accounts, false)
    {
      done, failed := [], [];
      for i := 0 to |accounts|
        invariant done == Part(accounts[..i], true) && failed == Part(accounts[..i], false)
      {
        assert accounts[..i + 1][..i] == accounts[..i];
        if accounts[i].id.Some? {
          done := done + [accounts[i]];
        } else {
          failed := failed + [accounts[i]];
        }
      }
      assert accounts[..|accounts|] == accounts;
    }

    /**
     Provision every pair. An uncancelled run returns one outcome per pair, with as many successful
     ENDs as provisioned accounts; a cancelled one returns None, with the logs it left.
     */
    method ProvisionAll(o: nat -> Answers, r: Courses) returns (accounts: Option<seq<Account>>)
      requires logs == seq(|pairs|, i => []) && ValidCourses(pairs, o, r)
      modifies this`logs
      ensures accounts.Some? <==> Uncancelled(pairs, o, r)
      ensures logs == Logs(pairs, o, r)
      ensures accounts.Some? ==>
        && accounts.value == Results(pairs, o) && multiset(KeysOf(accounts.value)) == multiset(Keys(pairs))
        && CountProvisioned(accounts.value) == CountSucceeded(logs)
    {
      var creation := CreateAll(o, r);
      if r.between || exists i :: 0 <= i < |r.creation| && !r.creation[i].Through? {
        assert !ReachesCycle(r);
        forall i | 0 <= i < |pairs|
          ensures logs[i] == Logs(pairs, o, r)[i]
        {
          assert CreationEvents(o(i), r.creation[i]) + [] == CreationEvents(o(i), r.creation[i]);
        }
        assert logs == Logs(pairs, o, r);
        return None;
      }
      var finals := CycleAll(creation, o, r);
      if exists i :: 0 <= i < |pairs| && creation[i].id.Some? && !r.cycle[i].Through? {
        return None;
      }
      var done, failed := Split(finals);
      OneOutcomePerPair(pairs, o);
      SucceededEndsAreProvisioned(pairs, o, r);
      return Some(done + failed);
    }
  }
}
