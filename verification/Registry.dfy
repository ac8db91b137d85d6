/**
 Regenerating the dataset registry: walk the existing entries, append newly discovered scenarios,
 rebuild the unified dataset. Git history and the datasets checkout are a fixed world.
 */
module Registry {
  import opened Wrappers
  import SemVer

  const DEFAULT_VERSION := "0.1.0"
  const METRIC_SCRIPT_PATH := "metric/metric.py"

  /** An item's pinned commit: no key, a null, or a hash. */
  datatype Commit = Absent | Null | Sha(id: string)

  /** A pinned item. An item with no path, or an empty one, has path ""; `keys` is every other key. */
  datatype Pin = Pin(path: string, commit: Commit, keys: string)

  datatype Description =
    | Authored(text: string)
    | FromDisk(text: string, taskCount: nat, scenario: string)
    | Spanning(included: multiset<string>, scenarioCount: nat, taskCount: nat, excluded: set<string>)

  /** A registry row; None for a missing key, `rest` for every key the updater never reads. */
  datatype Entry = Entry(
    name: Option<string>, version: Option<string>, description: Description,
    tasks: Option<seq<Pin>>, scenarios: Option<seq<Pin>>, instructions: Option<seq<Pin>>, metrics: Option<seq<Pin>>,
    rest: string)

  datatype Error = NothingToDo | NoHistory | CannotBump(version: string) | NamelessEntry

  datatype Bump = Bump(name: string, oldVersion: string, newVersion: string)

  /** The checkout, its git history, and the command line. `reconcile` is sorted, without repeats. */
  datatype World = World(
    commits: string -> Option<string>, discovered: set<string>, taskNames: string -> Option<seq<string>>,
    hasScenario: string -> bool, text: string -> string, instructionPaths: seq<string>,
    reconcile: seq<string>, addUnified: bool, unifiedName: string, exclude: set<string>,
    noAutoBump: bool, pin: Option<string>)

  predicate ValidWorld(w: World) {
    && (forall i :: 0 <= i < |w.reconcile| ==> w.reconcile[i] in w.discovered)
    && (forall i, j :: 0 <= i < j < |w.reconcile| ==> w.reconcile[i] != w.reconcile[j])
  }

  // ---- refreshing by path ------------------------------------------------------------------------

  function CommitFor(w: World, path: string): Option<string> {
    if w.pin.Some? then w.pin else w.commits(path)
  }

  /** A path without history keeps its pin - written out as a null if there was no key. */
  function RefreshedPin(w: World, p: Pin): Pin {
    if p.path == "" then p
    else match CommitFor(w, p.path)
         case Some(id) => p.(commit := Sha(id))
         case None => if p.commit.Absent? then p.(commit := Null) else p
  }

  function RefreshedPins(w: World, pins: seq<Pin>): seq<Pin> {
    seq(|pins|, i requires 0 <= i < |pins| => RefreshedPin(w, pins[i]))
  }

  function RefreshedKey(w: World, pins: Option<seq<Pin>>): Option<seq<Pin>> {
    if pins.None? then None else Some(RefreshedPins(w, pins.value))
  }

  function Refreshed(w: World, e: Entry): Entry {
    e.(tasks := RefreshedKey(w, e.tasks), scenarios := RefreshedKey(w, e.scenarios),
       instructions := RefreshedKey(w, e.instructions), metrics := RefreshedKey(w, e.metrics))
  }

  function Unresolved(w: World, pins: seq<Pin>): seq<string> {
    if pins == [] then [] else
      var last := pins[|pins| - 1];
      Unresolved(w, pins[..|pins| - 1])
      + (if last.path != "" && CommitFor(w, last.path).None? then [last.path] else [])
  }

  function UnresolvedKey(w: World, pins: Option<seq<Pin>>): seq<string> {
    if pins.None? then [] else Unresolved(w, pins.value)
  }

  function UnresolvedIn(w: World, e: Entry): seq<string> {
    UnresolvedKey(w, e.tasks) + UnresolvedKey(w, e.scenarios)
    + UnresolvedKey(w, e.instructions) + UnresolvedKey(w, e.metrics)
  }

  // ---- rebuilding from disk ------------------------------------------------------------------------

  predicate Resolvable(w: World, paths: seq<string>) {
    forall i :: 0 <= i < |paths| ==> CommitFor(w, paths[i]).Some?
  }

  function Pinned(w: World, paths: seq<string>): (pins: seq<Pin>)
    requires Resolvable(w, paths)
  {
    seq(|paths|, i requires 0 <= i < |paths| => Pin(paths[i], Sha(CommitFor(w, paths[i]).value), ""))
  }

  function TaskPaths(name: string, tasks: seq<string>): seq<string> {
    seq(|tasks|, i requires 0 <= i < |tasks| => "tasks/" + name + "/" + tasks[i])
  }

  function ScenarioPaths(w: World, name: string): seq<string> {
    if w.hasScenario(name) then ["scenarios/" + name] else []
  }

  /** None where the tasks directory is gone; a path without history ends the program. */
  function Built(w: World, name: string): Result<Option<Entry>, Error> {
    match w.taskNames(name)
    case None => Success(None)
    case Some(tasks) =>
      if Resolvable(w, TaskPaths(name, tasks)) && Resolvable(w, ScenarioPaths(w, name))
         && Resolvable(w, w.instructionPaths) && Resolvable(w, [METRIC_SCRIPT_PATH])
      then Success(Some(Entry(
        Some(name), Some(DEFAULT_VERSION), FromDisk(w.text(name), |tasks|, name),
        Some(Pinned(w, TaskPaths(name, tasks))), Some(Pinned(w, ScenarioPaths(w, name))),
        Some(Pinned(w, w.instructionPaths)), Some(Pinned(w, [METRIC_SCRIPT_PATH])), "")))
      else Failure(NoHistory)
  }

  // ---- versions ------------------------------------------------------------------------------------

  /** Equal but for the version field. */
  predicate SameContent(e: Entry, f: Entry) {
    e.(version := None) == f.(version := None)
  }

  function VersionOf(e: Entry): string {
    if e.version.Some? then e.version.value else DEFAULT_VERSION
  }

  function Versioned(w: World, e: Entry, prev: Option<Entry>): Result<(Entry, seq<Bump>), Error>
    requires e.name.Some?
  {
    if prev.None? then Success((e, []))
    else if SameContent(prev.value, e) || w.noAutoBump then Success((e.(version := Some(VersionOf(prev.value))), []))
    else match SemVer.BumpPatch(VersionOf(prev.value))
         case None => Failure(CannotBump(VersionOf(prev.value)))
         case Some(next) => Success((e.(version := Some(next)), [Bump(e.name.value, VersionOf(prev.value), next)]))
  }

  // ---- the three stages ------------------------------------------------------------------------------

  /** What an existing entry is refreshed or rebuilt to, before its version is settled. */
  function Candidate(w: World, prev: Entry): Result<Entry, Error>
    requires prev.name.Some?
  {
    if prev.name.value !in w.reconcile then Success(Refreshed(w, prev))
    else match Built(w, prev.name.value)
         case Failure(error) => Failure(error)
         case Success(None) => Success(Refreshed(w, prev))
         case Success(Some(e)) => Success(e)
  }

  function Renewed(w: World, prev: Entry): Result<(Entry, seq<Bump>), Error>
    requires prev.name.Some?
  {
    match Candidate(w, prev)
    case Failure(error) => Failure(error)
    case Success(e) => Versioned(w, e, Some(prev))
  }

  datatype Output = Output(registry: seq<Entry>, bumps: seq<Bump>)

  predicate IsUnified(w: World, e: Entry) {
    w.addUnified && e.name == Some(w.unifiedName)
  }

  /** The walk over the first `n` existing entries. */
  function Walked(w: World, existing: seq<Entry>, n: nat): Result<Output, Error>
    requires n <= |existing|
  {
    if n == 0 then Success(Output([], []))
    else match Walked(w, existing, n - 1)
         case Failure(error) => Failure(error)
         case Success(out) =>
           var prev := existing[n - 1];
           if prev.name.None? then Success(out.(registry := out.registry + [prev]))
           else if IsUnified(w, prev) then Success(out)
           else match Renewed(w, prev)
                case Failure(error) => Failure(error)
                case Success((e, bumps)) => Success(Output(out.registry + [e], out.bumps + bumps))
  }

  function Names(entries: seq<Entry>): set<string> {
    set e | e in entries && e.name.Some? :: e.name.value
  }

  /** The first `n` reconciled scenarios appended where the existing registry has no such name. */
  function Appended(w: World, seen: set<string>, registry: seq<Entry>, n: nat): Result<seq<Entry>, Error>
    requires n <= |w.reconcile|
  {
    if n == 0 then Success(registry)
    else match Appended(w, seen, registry, n - 1)
         case Failure(error) => Failure(error)
         case Success(entries) =>
           if w.reconcile[n - 1] in seen then Success(entries)
           else match Built(w, w.reconcile[n - 1])
                case Failure(error) => Failure(error)
                case Success(None) => Success(entries)
                case Success(Some(e)) => Success(entries + [e])
  }

  predicate IsSource(w: World, e: Entry) {
    e.name.Some? && e.name.value in w.discovered
  }

  predicate IsIncluded(w: World, e: Entry) {
    IsSource(w, e) && e.name.value !in w.exclude && e.name.value != w.unifiedName
  }

  function Included(w: World, entries: seq<Entry>): seq<Entry> {
    if entries == [] then [] else
      var last := entries[|entries| - 1];
      Included(w, entries[..|entries| - 1]) + (if IsIncluded(w, last) then [last] else [])
  }

  function Excluded(w: World, entries: seq<Entry>): set<string> {
    set e | e in entries && IsSource(w, e) && e.name.value in w.exclude :: e.name.value
  }

  /** The entries not carrying the unified name, in order. */
  function Others(w: World, entries: seq<Entry>): seq<Entry> {
    if entries == [] then [] else
      var last := entries[|entries| - 1];
      Others(w, entries[..|entries| - 1]) + (if last.name != Some(w.unifiedName) then [last] else [])
  }

  function PinsOf(pins: Option<seq<Pin>>): seq<Pin> {
    if pins.Some? then pins.value else []
  }

  function AllScenarios(entries: seq<Entry>): seq<Pin> {
    if entries == [] then [] else AllScenarios(entries[..|entries| - 1]) + PinsOf(entries[|entries| - 1].scenarios)
  }

  function AllTasks(entries: seq<Entry>): seq<Pin> {
    if entries == [] then [] else AllTasks(entries[..|entries| - 1]) + PinsOf(entries[|entries| - 1].tasks)
  }

  function AllNames(entries: seq<Entry>): multiset<string> {
    if entries == [] then multiset{} else
      AllNames(entries[..|entries| - 1])
      + (if entries[|entries| - 1].name.Some? then multiset{entries[|entries| - 1].name.value} else multiset{})
  }

  function Unified(w: World, entries: seq<Entry>, metricCommit: string): Entry {
    var included := Included(w, entries);
    Entry(Some(w.unifiedName), Some(DEFAULT_VERSION),
          Spanning(AllNames(included), |AllScenarios(included)|, |AllTasks(included)|, Excluded(w, entries)),
          Some(AllTasks(included)), Some(AllScenarios(included)), None,
          Some([Pin(METRIC_SCRIPT_PATH, Sha(metricCommit), "")]), "")
  }

  /** An empty `--git-commit` falls through to git here, though it pins everything else. */
  function MetricCommit(w: World): Option<string> {
    if w.pin.Some? && w.pin.value != "" then w.pin else w.commits(METRIC_SCRIPT_PATH)
  }

  /** The last existing entry of a name. */
  function Named(entries: seq<Entry>, name: string): Option<Entry> {
    if entries == [] then None
    else if entries[|entries| - 1].name == Some(name) then Some(entries[|entries| - 1])
    else Named(entries[..|entries| - 1], name)
  }

  predicate AllNamed(entries: seq<Entry>) {
    forall i :: 0 <= i < |entries| ==> entries[i].name.Some?
  }

  function WithUnified(w: World, existing: seq<Entry>, out: Output): Result<Output, Error> {
    if !AllNamed(out.registry) then Failure(NamelessEntry)
    else if MetricCommit(w).None? then Failure(NoHistory)
    else match Versioned(w, Unified(w, out.registry, MetricCommit(w).value), Named(existing, w.unifiedName))
         case Failure(error) => Failure(error)
         case Success((unified, bumps)) => Success(Output(Others(w, out.registry) + [unified], out.bumps + bumps))
  }

  /** One run of the updater. */
  function Updated(w: World, existing: seq<Entry>): Result<Output, Error> {
    if existing == [] && w.discovered == {} then Failure(NothingToDo)
    else match Walked(w, existing, |existing|)
         case Failure(error) => Failure(error)
         case Success(out) =>
           match Appended(w, Names(existing), out.registry, |w.reconcile|)
           case Failure(error) => Failure(error)
           case Success(entries) =>
             if w.addUnified then WithUnified(w, existing, Output(entries, out.bumps))
             else Success(Output(entries, out.bumps))
  }
}

/** Why running the updater again changes nothing, and when it does. */
module RegistryTheorems {
  import opened Wrappers
  import opened Registry
  import SemVer

  // ---- one entry -------------------------------------------------------------------------------------

  /** A refresh touches pins only: each takes its path's latest commit, or keeps what it had. */
  lemma RefreshKeepsMembership(w: World, pins: seq<Pin>, i: nat)
    requires i < |pins|
    ensures var p, q := pins[i], RefreshedPins(w, pins)[i];
      && q.path == p.path && q.keys == p.keys
      && (p.path != "" && CommitFor(w, p.path).Some? ==> q.commit == Sha(CommitFor(w, p.path).value))
      && (p.path == "" || CommitFor(w, p.path).None? ==> q.commit == p.commit || (p.commit.Absent? && q.commit.Null?))
  {
  }

  lemma RefreshTwice(w: World, pins: Option<seq<Pin>>)
    ensures RefreshedKey(w, RefreshedKey(w, pins)) == RefreshedKey(w, pins)
  {
    if pins.Some? {
      var once := RefreshedPins(w, pins.value);
      assert RefreshedPins(w, once) == once;
    }
  }

  lemma RefreshIsSettled(w: World, e: Entry, version: Option<string>)
    ensures Refreshed(w, Refreshed(w, e).(version := version)) == Refreshed(w, e).(version := version)
  {
    RefreshTwice(w, e.tasks);
    RefreshTwice(w, e.scenarios);
    RefreshTwice(w, e.instructions);
    RefreshTwice(w, e.metrics);
  }

  /** Renewing the entry gives it back, without a bump. */
  predicate Settled(w: World, e: Entry) {
    e.name.Some? && Renewed(w, e) == Success((e, []))
  }

  lemma CandidateIsSettled(w: World, prev: Entry, version: string)
    requires prev.name.Some? && Candidate(w, prev).Success?
    ensures Candidate(w, prev).value.name == prev.name
    ensures Settled(w, Candidate(w, prev).value.(version := Some(version)))
  {
    var e := Candidate(w, prev).value;
    RefreshIsSettled(w, prev, Some(version));
    var f := e.(version := Some(version));
    assert Candidate(w, f).Success? && SameContent(f, Candidate(w, f).value);
  }

  lemma RenewedIsSettled(w: World, prev: Entry)
    requires prev.name.Some? && Renewed(w, prev).Success?
    ensures Settled(w, Renewed(w, prev).value.0) && Renewed(w, prev).value.0.name == prev.name
  {
    var e := Renewed(w, prev).value.0;
    CandidateIsSettled(w, prev, e.version.value);
  }

  lemma BuiltIsSettled(w: World, name: string)
    requires name in w.reconcile && Built(w, name).Success? && Built(w, name).value.Some?
    ensures Settled(w, Built(w, name).value.value) && Built(w, name).value.value.name == Some(name)
  {
  }

  /**
   A renewed entry's version: unchanged if and only if its content is unchanged or bumping is off;
   otherwise the patch successor, strictly later. The run exits on a changed entry whose version is
   not a core one.
   */
  lemma VersionFollowsContent(w: World, prev: Entry, v: SemVer.Version)
    requires prev.name.Some? && SemVer.WellFormed(v) && prev.version == Some(SemVer.Text(v))
    requires Candidate(w, prev).Success?
    ensures var e := Candidate(w, prev).value; var changed := !SameContent(prev, e) && !w.noAutoBump;
      && (Renewed(w, prev).Failure? <==> changed && !SemVer.IsCore(v))
      && (!changed ==> Renewed(w, prev) == Success((e.(version := prev.version), [])))
      && (changed && SemVer.IsCore(v) ==>
            var next := SemVer.Core(SemVer.Parse(v.major), SemVer.Parse(v.minor), SemVer.Parse(v.patch) + 1);
            && Renewed(w, prev) == Success((e.(version := Some(SemVer.Text(next))),
                                            [Bump(prev.name.value, SemVer.Text(v), SemVer.Text(next))]))
            && SemVer.WellFormed(next) && SemVer.Precedes(v, next))
  {
    SemVer.BumpOfSemVer(v);
    CandidateIsSettled(w, prev, "");
  }

  // ---- the walk ------------------------------------------------------------------------------------

  predicate Stays(w: World, e: Entry) {
    e.name.None? || (Settled(w, e) && !IsUnified(w, e))
  }

  predicate AllStay(w: World, entries: seq<Entry>) {
    forall i :: 0 <= i < |entries| ==> Stays(w, entries[i])
  }

  /** The existing entries that are not the unified one. */
  function Kept(w: World, existing: seq<Entry>): seq<Entry> {
    if w.addUnified then Others(w, existing) else existing
  }

  /** What the run makes of an entry it keeps: nameless ones verbatim, others renewed. */
  predicate Follows(w: World, prev: Entry, e: Entry) {
    if prev.name.None? then e == prev
    else Renewed(w, prev).Success? && e == Renewed(w, prev).value.0 && e.name == prev.name
  }

  predicate AllFollow(w: World, before: seq<Entry>, after: seq<Entry>) {
    |before| == |after| && forall i :: 0 <= i < |before| ==> Follows(w, before[i], after[i])
  }

  lemma OneMoreFollows(w: World, before: seq<Entry>, after: seq<Entry>, prev: Entry, e: Entry)
    requires AllFollow(w, before, after) && AllStay(w, after) && Follows(w, prev, e) && Stays(w, e)
    ensures AllFollow(w, before + [prev], after + [e]) && AllStay(w, after + [e])
  {
  }

  lemma RenewedFollows(w: World, prev: Entry)
    requires prev.name.Some? && !IsUnified(w, prev) && Renewed(w, prev).Success?
    ensures Follows(w, prev, Renewed(w, prev).value.0) && Stays(w, Renewed(w, prev).value.0)
  {
    RenewedIsSettled(w, prev);
  }

  lemma KeptOfOne(w: World, existing: seq<Entry>, n: nat)
    requires n < |existing|
    ensures Kept(w, existing[..n + 1])
         == if IsUnified(w, existing[n]) then Kept(w, existing[..n]) else Kept(w, existing[..n]) + [existing[n]]
  {
    assert existing[..n + 1][..n] == existing[..n];
    assert existing[..n + 1] == existing[..n] + [existing[n]];
  }

  lemma {:induction false} WalkFollows(w: World, existing: seq<Entry>, n: nat)
    requires n <= |existing| && Walked(w, existing, n).Success?
    ensures var registry := Walked(w, existing, n).value.registry;
      AllFollow(w, Kept(w, existing[..n]), registry) && AllStay(w, registry)
  {
    if n > 0 {
      WalkFollows(w, existing, n - 1);
      KeptOfOne(w, existing, n - 1);
      var before, prev := Walked(w, existing, n - 1).value.registry, existing[n - 1];
      if prev.name.None? {
        OneMoreFollows(w, Kept(w, existing[..n - 1]), before, prev, prev);
      } else if !IsUnified(w, prev) {
        RenewedFollows(w, prev);
        OneMoreFollows(w, Kept(w, existing[..n - 1]), before, prev, Renewed(w, prev).value.0);
      }
    }
  }

  lemma {:induction false} WalkOfSettled(w: World, existing: seq<Entry>, n: nat)
    requires n <= |existing| && AllStay(w, existing[..n])
    ensures Walked(w, existing, n) == Success(Output(existing[..n], []))
  {
    if n > 0 {
      assert existing[..n - 1] == existing[..n][..n - 1];
      WalkOfSettled(w, existing, n - 1);
      assert Stays(w, existing[..n][n - 1]);
      assert existing[..n] == existing[..n - 1] + [existing[n - 1]];
      assert Output(existing[..n], [] + []) == Output(existing[..n], []);
    }
  }

  lemma {:induction false} NamesOfOthers(w: World, entries: seq<Entry>)
    ensures Names(Others(w, entries)) == Names(entries) - {w.unifiedName}
    ensures forall e :: e in Others(w, entries) <==> e in entries && e.name != Some(w.unifiedName)
  {
    if entries != [] {
      NamesOfOthers(w, entries[..|entries| - 1]);
      assert entries == entries[..|entries| - 1] + [entries[|entries| - 1]];
    }
  }

  lemma NamesFollow(w: World, before: seq<Entry>, after: seq<Entry>)
    requires AllFollow(w, before, after)
    ensures Names(before) == Names(after)
  {
    forall name
      ensures name in Names(before) <==> name in Names(after)
    {
      if name in Names(before) {
        var i :| 0 <= i < |before| && before[i].name == Some(name);
        assert Follows(w, before[i], after[i]) && after[i] in after;
      }
      if name in Names(after) {
        var i :| 0 <= i < |after| && after[i].name == Some(name);
        assert Follows(w, before[i], after[i]) && before[i] in before;
      }
    }
  }

  // ---- the appended scenarios ----------------------------------------------------------------------

  /** The scenario is nowhere on disk any more. */
  predicate Vanished(w: World, name: string) {
    w.taskNames(name).None?
  }

  predicate IsNew(w: World, seen: set<string>, e: Entry) {
    && e.name.Some? && e.name.value in w.reconcile && e.name.value !in seen
    && !Vanished(w, e.name.value) && Settled(w, e)
  }

  /** Only new entries are appended, and every new scenario that is still there is. */
  lemma {:induction false} AppendedAreNew(w: World, seen: set<string>, registry: seq<Entry>, n: nat)
    requires n <= |w.reconcile| && Appended(w, seen, registry, n).Success?
    ensures var entries := Appended(w, seen, registry, n).value;
      && |registry| <= |entries| && entries[..|registry|] == registry
      && (forall i :: |registry| <= i < |entries| ==> IsNew(w, seen, entries[i]))
      && (forall k :: 0 <= k < n ==>
            w.reconcile[k] in seen || Vanished(w, w.reconcile[k]) || w.reconcile[k] in Names(entries))
  {
    if n > 0 {
      AppendedAreNew(w, seen, registry, n - 1);
      var before, entries := Appended(w, seen, registry, n - 1).value, Appended(w, seen, registry, n).value;
      var name := w.reconcile[n - 1];
      if name !in seen && !Vanished(w, name) {
        BuiltIsSettled(w, name);
        var e := Built(w, name).value.value;
        assert entries == before + [e] && e in entries;
      }
      assert forall e :: e in before ==> e in entries;
    }
  }

  lemma {:induction false} NothingToAppend(w: World, seen: set<string>, registry: seq<Entry>, n: nat)
    requires n <= |w.reconcile|
    requires forall k :: 0 <= k < n ==> w.reconcile[k] in seen || Vanished(w, w.reconcile[k])
    ensures Appended(w, seen, registry, n) == Success(registry)
  {
    if n > 0 {
      NothingToAppend(w, seen, registry, n - 1);
    }
  }

  // ---- the unified entry ---------------------------------------------------------------------------

  lemma {:induction false} IncludedOfOthers(w: World, entries: seq<Entry>)
    ensures Included(w, Others(w, entries)) == Included(w, entries)
    ensures Others(w, Others(w, entries)) == Others(w, entries)
  {
    if entries != [] {
      var front, last := entries[..|entries| - 1], entries[|entries| - 1];
      IncludedOfOthers(w, front);
      var others := Others(w, entries);
      if last.name == Some(w.unifiedName) {
        assert others == Others(w, front);
        assert Included(w, entries) == Included(w, front);
      } else {
        assert others == Others(w, front) + [last];
        assert others[..|others| - 1] == Others(w, front) && others[|others| - 1] == last;
      }
    }
  }

  lemma ExcludedOfOthers(w: World, entries: seq<Entry>)
    ensures Excluded(w, Others(w, entries)) == Excluded(w, entries) - {w.unifiedName}
    ensures w.unifiedName in Excluded(w, entries)
       <==> w.unifiedName in Names(entries) && w.unifiedName in w.discovered && w.unifiedName in w.exclude
  {
    NamesOfOthers(w, entries);
  }

  lemma {:induction false} NamedIsLast(entries: seq<Entry>, e: Entry, name: string)
    requires e.name == Some(name)
    ensures Named(entries + [e], name) == Some(e)
  {
    assert (entries + [e])[|entries|] == e;
  }

  lemma {:induction false} OthersOfStaying(w: World, entries: seq<Entry>)
    requires forall e :: e in entries ==> e.name != Some(w.unifiedName)
    ensures Others(w, entries) == entries
  {
    if entries != [] {
      var front := entries[..|entries| - 1];
      assert entries == front + [entries[|entries| - 1]];
      OthersOfStaying(w, front);
    }
  }

  // ---- the whole run ---------------------------------------------------------------------------------

  /** The registry just before the unified entry is rebuilt. */
  function Real(w: World, existing: seq<Entry>): seq<Entry>
    requires Updated(w, existing).Success?
  {
    Appended(w, Names(existing), Walked(w, existing, |existing|).value.registry, |w.reconcile|).value
  }

  /**
   The one way a second run differs: the unified name is itself a scenario on disk, reconciled for
   the first time, and excluded from the union - so the first run lists it as an exclusion and the
   second, where its entry is the unified one, does not.
   */
  predicate Shadowed(w: World, existing: seq<Entry>) {
    && w.addUnified
    && w.unifiedName in w.reconcile && w.unifiedName !in Names(existing)
    && !Vanished(w, w.unifiedName) && w.unifiedName in w.exclude
  }

  lemma RealEntries(w: World, existing: seq<Entry>)
    requires ValidWorld(w) && Updated(w, existing).Success?
    ensures var entries, kept := Real(w, existing), Kept(w, existing);
      && |kept| <= |entries|
      && AllFollow(w, kept, entries[..|kept|])
      && AllStay(w, entries[..|kept|])
      && (forall i :: |kept| <= i < |entries| ==> IsNew(w, Names(existing), entries[i]))
      && (forall k :: 0 <= k < |w.reconcile| ==>
            w.reconcile[k] in Names(existing) || Vanished(w, w.reconcile[k]) || w.reconcile[k] in Names(entries))
  {
    WalkFollows(w, existing, |existing|);
    assert existing[..|existing|] == existing;
    AppendedAreNew(w, Names(existing), Walked(w, existing, |existing|).value.registry, |w.reconcile|);
  }

  lemma RealNames(w: World, existing: seq<Entry>)
    requires ValidWorld(w) && Updated(w, existing).Success?
    ensures Names(existing) - (if w.addUnified then {w.unifiedName} else {}) <= Names(Real(w, existing))
    ensures forall e :: e in Real(w, existing) ==> e.name.None? || Settled(w, e)
  {
    RealEntries(w, existing);
    var entries, kept := Real(w, existing), Kept(w, existing);
    NamesOfOthers(w, existing);
    NamesFollow(w, kept, entries[..|kept|]);
    assert forall e :: e in entries[..|kept|] ==> e in entries;
    forall e | e in entries
      ensures e.name.None? || Settled(w, e)
    {
      var i :| 0 <= i < |entries| && entries[i] == e;
      assert i < |kept| ==> Stays(w, entries[..|kept|][i]);
    }
  }

  /** The unified name is among the real entries exactly when its scenario was just appended. */
  lemma UnifiedAmongReal(w: World, existing: seq<Entry>)
    requires ValidWorld(w) && Updated(w, existing).Success? && w.addUnified
    ensures w.unifiedName in Names(Real(w, existing))
       <==> w.unifiedName in w.reconcile && w.unifiedName !in Names(existing) && !Vanished(w, w.unifiedName)
  {
    RealEntries(w, existing);
    var entries, kept := Real(w, existing), Kept(w, existing);
    NamesOfOthers(w, existing);
    NamesFollow(w, kept, entries[..|kept|]);
    if w.unifiedName in Names(entries) {
      var i :| 0 <= i < |entries| && entries[i].name == Some(w.unifiedName);
      assert i < |kept| ==> entries[..|kept|][i] in entries[..|kept|];
    }
  }

  /** A run over settled entries, followed perhaps by the unified one, walks through unchanged. */
  lemma SecondWalk(w: World, settled: seq<Entry>, rest: seq<Entry>)
    requires forall e :: e in settled ==> Stays(w, e)
    requires |rest| <= 1 && forall e :: e in rest ==> IsUnified(w, e)
    ensures Walked(w, settled + rest, |settled + rest|) == Success(Output(settled, []))
  {
    var all := settled + rest;
    assert all[..|settled|] == settled;
    WalkOfSettled(w, all, |settled|);
    if rest != [] {
      assert all[|settled|] == rest[0] && rest[0] in rest;
    }
  }

  lemma SecondAppend(w: World, existing: seq<Entry>, seen: set<string>, registry: seq<Entry>)
    requires ValidWorld(w) && Updated(w, existing).Success?
    requires Names(existing) + Names(Real(w, existing)) <= seen
    ensures Appended(w, seen, registry, |w.reconcile|) == Success(registry)
  {
    RealEntries(w, existing);
    NothingToAppend(w, seen, registry, |w.reconcile|);
  }

  lemma PlainSecondRun(w: World, existing: seq<Entry>)
    requires ValidWorld(w) && Updated(w, existing).Success? && !w.addUnified
    ensures var registry := Updated(w, existing).value.registry;
      Updated(w, registry) == Success(Output(registry, []))
  {
    var entries := Real(w, existing);
    RealNames(w, existing);
    RealEntries(w, existing);
    SecondWalk(w, entries, []);
    assert entries + [] == entries;
    SecondAppend(w, existing, Names(entries), entries);
  }

  /** The unified entry a run adds, and the registry it adds it to. */
  lemma UnifiedRun(w: World, existing: seq<Entry>) returns (unified: Entry)
    requires ValidWorld(w) && Updated(w, existing).Success? && w.addUnified
    ensures var entries := Real(w, existing);
      && AllNamed(entries) && MetricCommit(w).Some?
      && unified == Unified(w, entries, MetricCommit(w).value).(version := unified.version) && unified.version.Some?
      && Updated(w, existing).value.registry == Others(w, entries) + [unified]
  {
    var entries := Real(w, existing);
    unified := Versioned(w, Unified(w, entries, MetricCommit(w).value), Named(existing, w.unifiedName)).value.0;
  }

  lemma UnifiedSecondRun(w: World, existing: seq<Entry>, unified: Entry)
    requires ValidWorld(w) && Updated(w, existing).Success? && w.addUnified
    requires AllNamed(Real(w, existing)) && MetricCommit(w).Some?
    requires unified == Unified(w, Real(w, existing), MetricCommit(w).value).(version := unified.version)
    ensures var others := Others(w, Real(w, existing));
      Updated(w, others + [unified]) == WithUnified(w, others + [unified], Output(others, [])) && AllNamed(others)
  {
    var entries := Real(w, existing);
    var others := Others(w, entries);
    var registry := others + [unified];
    RealNames(w, existing);
    NamesOfOthers(w, entries);
    SecondWalk(w, others, [unified]);
    assert Names(registry) == Names(others) + {w.unifiedName} by {
      assert unified in registry;
      assert forall e :: e in registry <==> e in others || e == unified;
    }
    SecondAppend(w, existing, Names(registry), others);
    forall i | 0 <= i < |others|
      ensures others[i].name.Some?
    {
      assert others[i] in entries;
    }
  }

  /**
   Running the updater again on its own output, against the same repository and options, gives the
   same registry with no bumps - exactly unless the unified name is shadowed.
   */
  lemma SecondRunChangesNothing(w: World, existing: seq<Entry>)
    requires ValidWorld(w) && Updated(w, existing).Success?
    ensures var registry := Updated(w, existing).value.registry;
      Updated(w, registry) == Success(Output(registry, [])) <==> !Shadowed(w, existing)
  {
    if !w.addUnified {
      PlainSecondRun(w, existing);
    } else {
      var unified := UnifiedRun(w, existing);
      UnifiedSecondRun(w, existing, unified);
      UnifiedTwice(w, existing, unified);
    }
  }

  lemma UnionTwice(w: World, existing: seq<Entry>, commit: string, version: Option<string>)
    requires ValidWorld(w) && Updated(w, existing).Success? && w.addUnified
    ensures var entries := Real(w, existing);
      SameContent(Unified(w, entries, commit).(version := version), Unified(w, Others(w, entries), commit))
      <==> !Shadowed(w, existing)
  {
    var entries := Real(w, existing);
    IncludedOfOthers(w, entries);
    ExcludedOfOthers(w, entries);
    UnifiedAmongReal(w, existing);
    assert Shadowed(w, existing) <==> Excluded(w, Others(w, entries)) != Excluded(w, entries);
    var once, again := Unified(w, entries, commit), Unified(w, Others(w, entries), commit);
    assert once.description == again.description <==> once == again;
  }

  lemma UnifiedTwice(w: World, existing: seq<Entry>, unified: Entry)
    requires ValidWorld(w) && Updated(w, existing).Success? && w.addUnified
    requires MetricCommit(w).Some? && AllNamed(Others(w, Real(w, existing)))
    requires unified == Unified(w, Real(w, existing), MetricCommit(w).value).(version := unified.version)
    requires unified.version.Some?
    ensures var others := Others(w, Real(w, existing));
      WithUnified(w, others + [unified], Output(others, [])) == Success(Output(others + [unified], []))
      <==> !Shadowed(w, existing)
  {
    UnionTwice(w, existing, MetricCommit(w).value, unified.version);
    IncludedOfOthers(w, Real(w, existing));
    UnifiedAgain(w, Others(w, Real(w, existing)), unified, Unified(w, Others(w, Real(w, existing)), MetricCommit(w).value));
  }

  /** The last step of a second run gives the unified entry back if and only if its content is the same. */
  lemma UnifiedAgain(w: World, others: seq<Entry>, unified: Entry, again: Entry)
    requires AllNamed(others) && MetricCommit(w).Some? && Others(w, others) == others
    requires again == Unified(w, others, MetricCommit(w).value)
    requires unified.name == Some(w.unifiedName) && unified.version.Some?
    ensures WithUnified(w, others + [unified], Output(others, [])) == Success(Output(others + [unified], []))
       <==> SameContent(unified, again)
  {
    NamedIsLast(others, unified, w.unifiedName);
    assert Output(others + [unified], [] + []) == Output(others + [unified], []);
    var r := Versioned(w, again, Some(unified));
    if r.Success? && others + [r.value.0] == others + [unified] {
      assert (others + [r.value.0])[|others|] == unified;
      assert SameContent(r.value.0, again);
    }
  }

  lemma FollowingKeepsNamed(w: World, before: seq<Entry>, after: seq<Entry>)
    requires AllFollow(w, before, after)
    ensures AllNamed(before) <==> AllNamed(after)
  {
    forall i | 0 <= i < |before|
      ensures before[i].name.Some? <==> after[i].name.Some?
    {
      assert Follows(w, before[i], after[i]);
    }
  }

  lemma OthersKeepNamed(w: World, entries: seq<Entry>)
    ensures AllNamed(Others(w, entries)) <==> AllNamed(entries)
  {
    NamesOfOthers(w, entries);
    assert AllNamed(entries) <==> forall e :: e in entries ==> e.name.Some?;
    assert AllNamed(Others(w, entries)) <==> forall e :: e in Others(w, entries) ==> e.name.Some?;
  }

  lemma NewKeepNamed(w: World, seen: set<string>, walked: seq<Entry>, entries: seq<Entry>)
    requires |walked| <= |entries| && entries[..|walked|] == walked
    requires forall i :: |walked| <= i < |entries| ==> IsNew(w, seen, entries[i])
    ensures AllNamed(walked) <==> AllNamed(entries)
  {
    assert forall i :: 0 <= i < |walked| ==> walked[i] == entries[i];
  }

  /** Adding the unified dataset reads every entry's name, so it fails exactly on a nameless entry. */
  lemma NamelessEntriesFailTheUnion(w: World, existing: seq<Entry>)
    requires ValidWorld(w) && w.addUnified && (existing != [] || w.discovered != {})
    requires Walked(w, existing, |existing|).Success?
    requires Appended(w, Names(existing), Walked(w, existing, |existing|).value.registry, |w.reconcile|).Success?
    ensures Updated(w, existing) == Failure(NamelessEntry) <==> !AllNamed(existing)
  {
    var walked := Walked(w, existing, |existing|).value.registry;
    var entries := Appended(w, Names(existing), walked, |w.reconcile|).value;
    WalkFollows(w, existing, |existing|);
    assert existing[..|existing|] == existing;
    AppendedAreNew(w, Names(existing), walked, |w.reconcile|);
    OthersKeepNamed(w, existing);
    FollowingKeepsNamed(w, Kept(w, existing), walked);
    NewKeepNamed(w, Names(existing), walked, entries);
    UnionFailsOnNameless(w, existing, Output(entries, Walked(w, existing, |existing|).value.bumps));
  }

  lemma UnionFailsOnNameless(w: World, existing: seq<Entry>, out: Output)
    ensures WithUnified(w, existing, out) == Failure(NamelessEntry) <==> !AllNamed(out.registry)
  {
  }

  function ShadowedWorld(): World {
    World(path => Some("c0ffee"), {"all"}, name => Some(["t"]), name => true, name => "", [],
          ["all"], true, "all", {"all"}, false, None)
  }

  /** A concrete shadowing: the second run drops the exclusion and bumps the unified version. */
  lemma ShadowedRunDiffers()
    ensures var w := ShadowedWorld();
      && Updated(w, []).Success?
      && Updated(w, Updated(w, []).value.registry) != Success(Output(Updated(w, []).value.registry, []))
  {
    var w := ShadowedWorld();
    assert Walked(w, [], 0) == Success(Output([], []));
    var built := Built(w, "all").value.value;
    assert Appended(w, {}, [], 0) == Success([]);
    assert Appended(w, {}, [], 1) == Success([] + [built]);
    assert Names([]) == {};
    assert Updated(w, []).Success?;
    SecondRunChangesNothing(w, []);
  }

  /**
   Nothing is dropped: the new registry opens with every existing entry but the unified one, in
   order, nameless ones verbatim and the others renewed under their own name; then come scenarios
   the registry did not know; with a unified dataset, it comes last and only there.
   */
  lemma NothingIsDropped(w: World, existing: seq<Entry>)
    requires ValidWorld(w) && Updated(w, existing).Success?
    ensures var registry, kept := Updated(w, existing).value.registry, Kept(w, existing);
      && |kept| <= |registry|
      && AllFollow(w, kept, registry[..|kept|])
      && (!w.addUnified ==> forall i :: |kept| <= i < |registry| ==> IsNew(w, Names(existing), registry[i]))
      && (w.addUnified ==>
            && |kept| < |registry|
            && registry[|registry| - 1].name == Some(w.unifiedName)
            && (forall i :: 0 <= i < |registry| - 1 ==> registry[i].name != Some(w.unifiedName))
            && (forall i :: |kept| <= i < |registry| - 1 ==> IsNew(w, Names(existing), registry[i])))
  {
    RealEntries(w, existing);
    if w.addUnified {
      var unified := UnifiedRun(w, existing);
      OthersOfReal(w, existing);
    }
  }

  lemma OthersOfReal(w: World, existing: seq<Entry>)
    requires ValidWorld(w) && Updated(w, existing).Success? && w.addUnified
    ensures var entries, kept, others := Real(w, existing), Kept(w, existing), Others(w, Real(w, existing));
      && |kept| <= |others| && |kept| <= |entries|
      && others[..|kept|] == entries[..|kept|]
      && (forall i :: 0 <= i < |others| ==> others[i].name != Some(w.unifiedName))
      && (forall i :: |kept| <= i < |others| ==> IsNew(w, Names(existing), others[i]))
  {
    RealEntries(w, existing);
    var entries, kept := Real(w, existing), Kept(w, existing);
    KeptIsNotUnified(w, existing, entries[..|kept|]);
    OthersOfTail(w, entries, |kept|, Names(existing));
  }

  lemma KeptIsNotUnified(w: World, existing: seq<Entry>, after: seq<Entry>)
    requires w.addUnified && AllFollow(w, Kept(w, existing), after)
    ensures forall e :: e in after ==> e.name != Some(w.unifiedName)
  {
    NamesOfOthers(w, existing);
    NamesFollow(w, Kept(w, existing), after);
    forall e | e in after
      ensures e.name != Some(w.unifiedName)
    {
      assert e.name.Some? ==> e.name.value in Names(after);
    }
  }

  lemma OthersOfTail(w: World, entries: seq<Entry>, k: nat, seen: set<string>)
    requires k <= |entries| && forall e :: e in entries[..k] ==> e.name != Some(w.unifiedName)
    requires forall i :: k <= i < |entries| ==> IsNew(w, seen, entries[i])
    ensures var others := Others(w, entries);
      && k <= |others| && others[..k] == entries[..k]
      && (forall i :: 0 <= i < |others| ==> others[i].name != Some(w.unifiedName))
      && (forall i :: k <= i < |others| ==> IsNew(w, seen, others[i]))
  {
    var front, tail := entries[..k], entries[k..];
    assert front + tail == entries;
    assert forall e :: e in tail ==> IsNew(w, seen, e);
    OthersOfStaying(w, front);
    OthersSplit(w, front, tail);
    NamesOfOthers(w, tail);
    NamesOfOthers(w, entries);
    var others := Others(w, entries);
    forall i | k <= i < |others|
      ensures IsNew(w, seen, others[i])
    {
      assert others[i] == Others(w, tail)[i - k];
      assert others[i] in Others(w, tail);
    }
  }

  lemma {:induction false} OthersSplit(w: World, xs: seq<Entry>, ys: seq<Entry>)
    ensures Others(w, xs + ys) == Others(w, xs) + Others(w, ys)
  {
    if ys == [] {
      assert xs + ys == xs;
    } else {
      var front := ys[..|ys| - 1];
      OthersSplit(w, xs, front);
      assert (xs + ys)[..|xs + ys| - 1] == xs + front;
    }
  }
}
