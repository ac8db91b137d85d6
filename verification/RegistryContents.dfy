/**
 What the updater's new registry holds: each entry's pins, description and version, which scenarios
 come new, and what the unified dataset is the union of.
 */
module RegistryContents {
  import opened Sequences
  import opened Wrappers
  import opened Registry
  import opened RegistryTheorems
  import SemVer

  // ---- the unified dataset -----------------------------------------------------------------------

  /** Entry `n` goes into the union: its scenario is on disk, not excluded, and not the union's own name. */
  function Joins(w: World, entries: seq<Entry>): nat -> bool {
    (n: nat) => n < |entries| && entries[n].name.Some? && entries[n].name.value in w.discovered
                && entries[n].name.value !in w.exclude && entries[n].name.value != w.unifiedName
  }

  lemma IncludedOfMore(w: World, entries: seq<Entry>, e: Entry)
    ensures Included(w, entries + [e]) == Included(w, entries) + (if IsIncluded(w, e) then [e] else [])
  {
    assert (entries + [e])[..|entries|] == entries;
  }

  lemma JoinsOfMore(w: World, entries: seq<Entry>, e: Entry)
    ensures forall n: nat :: n < |entries| ==> (Joins(w, entries)(n) <==> Joins(w, entries + [e])(n))
    ensures Joins(w, entries + [e])(|entries|) <==> IsIncluded(w, e)
  {
    assert (entries + [e])[|entries|] == e;
  }

  lemma IncludedOneMore(w: World, front: seq<Entry>, last: Entry, before: seq<nat>) returns (idx: seq<nat>)
    requires Selects(Included(w, front), front, before, Joins(w, front))
    ensures Selects(Included(w, front + [last]), front + [last], idx, Joins(w, front + [last]))
  {
    idx := if IsIncluded(w, last) then before + [|front|] else before;
    IncludedOfMore(w, front, last);
    JoinsOfMore(w, front, last);
    SelectsMore(Included(w, front), front, before, Joins(w, front), last, Joins(w, front + [last]));
  }

  lemma {:induction false} IncludedIsSelected(w: World, entries: seq<Entry>) returns (idx: seq<nat>)
    ensures Selects(Included(w, entries), entries, idx, Joins(w, entries))
  {
    if entries == [] {
      idx := [];
    } else {
      var front, last := entries[..|entries| - 1], entries[|entries| - 1];
      var before := IncludedIsSelected(w, front);
      idx := IncludedOneMore(w, front, last, before);
      assert entries == front + [last];
    }
  }

  /** The pins under a key; none without the key. */
  function Under(pins: Option<seq<Pin>>): seq<Pin> {
    match pins
    case None => []
    case Some(listed) => listed
  }

  function TaskLists(entries: seq<Entry>): seq<seq<Pin>> {
    seq(|entries|, k requires 0 <= k < |entries| => Under(entries[k].tasks))
  }

  function ScenarioLists(entries: seq<Entry>): seq<seq<Pin>> {
    seq(|entries|, k requires 0 <= k < |entries| => Under(entries[k].scenarios))
  }

  function NamesIn(entries: seq<Entry>): seq<Option<string>> {
    seq(|entries|, k requires 0 <= k < |entries| => entries[k].name)
  }

  lemma {:induction false} AllTasksAreFlat(entries: seq<Entry>)
    ensures AllTasks(entries) == Flat(TaskLists(entries)) && AllScenarios(entries) == Flat(ScenarioLists(entries))
  {
    if entries != [] {
      var front, last := entries[..|entries| - 1], entries[|entries| - 1];
      AllTasksAreFlat(front);
      assert TaskLists(entries) == TaskLists(front) + [Under(last.tasks)];
      assert ScenarioLists(entries) == ScenarioLists(front) + [Under(last.scenarios)];
      FlatOfMore(TaskLists(front), Under(last.tasks));
      FlatOfMore(ScenarioLists(front), Under(last.scenarios));
    }
  }

  lemma {:induction false} AllNamesAreCounted(entries: seq<Entry>)
    ensures forall name :: AllNames(entries)[name] == multiset(NamesIn(entries))[Some(name)]
  {
    if entries != [] {
      var front, last := entries[..|entries| - 1], entries[|entries| - 1];
      AllNamesAreCounted(front);
      assert NamesIn(entries) == NamesIn(front) + [last.name];
    }
  }

  /** The discovered scenarios among the entries that the command line leaves out. */
  function LeftOut(w: World, entries: seq<Entry>): set<string> {
    set e | e in entries && e.name.Some? && e.name.value in w.discovered && e.name.value in w.exclude :: e.name.value
  }

  /** `u` is the union of the entries `joined`: their pins in order, their names, and the counts. */
  ghost predicate Unites(u: Entry, joined: seq<Entry>) {
    && u.tasks == Some(Flat(TaskLists(joined)))
    && u.scenarios == Some(Flat(ScenarioLists(joined)))
    && u.description.Spanning?
    && (forall name :: u.description.included[name] == multiset(NamesIn(joined))[Some(name)])
    && u.description.taskCount == |Flat(TaskLists(joined))|
    && u.description.scenarioCount == |Flat(ScenarioLists(joined))|
  }

  lemma UnifiedUnites(w: World, entries: seq<Entry>, commit: string) returns (idx: seq<nat>)
    ensures Lists(idx, |entries|, Joins(w, entries)) && Unites(Unified(w, entries, commit), Picked(entries, idx))
  {
    idx := IncludedIsSelected(w, entries);
    AllTasksAreFlat(Included(w, entries));
    AllNamesAreCounted(Included(w, entries));
  }

  /**
   The unified entry, last in the new registry, is the union of the entries before it whose scenario
   is on disk and not excluded: their tasks and their scenarios, each pin in registry order and as
   often as there; it names exactly those entries and counts what it lists. It names as excluded
   exactly the excluded scenarios on disk among them - and itself, if the run was shadowed.
   */
  lemma UnionIsExact(w: World, existing: seq<Entry>) returns (idx: seq<nat>)
    requires ValidWorld(w) && Updated(w, existing).Success? && w.addUnified
    ensures var registry := Updated(w, existing).value.registry; var n := |registry| - 1;
      && n >= 0 && Lists(idx, n, Joins(w, registry[..n])) && Unites(registry[n], Picked(registry[..n], idx))
      && registry[n].name == Some(w.unifiedName) && registry[n].instructions.None?
      && registry[n].description.excluded
         == LeftOut(w, registry[..n]) + (if Shadowed(w, existing) then {w.unifiedName} else {})
  {
    var entries := Real(w, existing);
    var u := UnifiedRun(w, existing);
    var others := Others(w, entries);
    assert (others + [u])[..|others|] == others;
    IncludedOfOthers(w, entries);
    idx := UnifiedUnites(w, others, MetricCommit(w).value);
    ExcludedOfOthers(w, entries);
    UnifiedAmongReal(w, existing);
    assert LeftOut(w, others) == Excluded(w, others);
  }

  // ---- one entry -----------------------------------------------------------------------------------

  /** The commit an item of this path is pinned to: the command line's, if it gives one, else the path's latest. */
  predicate IsCommit(w: World, path: string, id: string) {
    if w.pin.Some? then id == w.pin.value else w.commits(path) == Some(id)
  }

  predicate HasCommit(w: World, path: string) {
    w.pin.Some? || w.commits(path).Some?
  }

  /** `pins` lists exactly these paths, in order, each at its commit. */
  predicate PinsPaths(w: World, pins: Option<seq<Pin>>, paths: seq<string>) {
    && pins.Some? && |pins.value| == |paths|
    && forall i :: 0 <= i < |paths| ==>
         pins.value[i].path == paths[i] && pins.value[i].keys == "" && pins.value[i].commit.Sha?
         && IsCommit(w, paths[i], pins.value[i].commit.id)
  }

  /** `after` is `before` with every pin moved to its path's commit, where it has a path and that has one. */
  predicate PinsMoved(w: World, before: Option<seq<Pin>>, after: Option<seq<Pin>>) {
    && (before.None? <==> after.None?)
    && (before.Some? ==>
          && |after.value| == |before.value|
          && forall i :: 0 <= i < |before.value| ==>
               var p, q := before.value[i], after.value[i];
               && q.path == p.path && q.keys == p.keys
               && if p.path != "" && HasCommit(w, p.path) then q.commit.Sha? && IsCommit(w, p.path, q.commit.id)
                  else if p.path != "" && p.commit.Absent? then q.commit.Null?
                  else q.commit == p.commit)
  }

  /** The entry of a scenario built from its directory. */
  predicate FromDirectory(w: World, name: string, e: Entry) {
    && w.taskNames(name).Some?
    && var tasks := w.taskNames(name).value;
       && e.name == Some(name) && e.rest == "" && e.description == FromDisk(w.text(name), |tasks|, name)
       && PinsPaths(w, e.tasks, seq(|tasks|, i requires 0 <= i < |tasks| => "tasks/" + name + "/" + tasks[i]))
       && PinsPaths(w, e.scenarios, if w.hasScenario(name) then ["scenarios/" + name] else [])
       && PinsPaths(w, e.instructions, w.instructionPaths)
       && PinsPaths(w, e.metrics, [METRIC_SCRIPT_PATH])
  }

  /** The entry refreshed in place: its four lists moved to their commits, the rest as authored. */
  predicate InPlace(w: World, prev: Entry, e: Entry) {
    && e.name == prev.name && e.description == prev.description && e.rest == prev.rest
    && PinsMoved(w, prev.tasks, e.tasks) && PinsMoved(w, prev.scenarios, e.scenarios)
    && PinsMoved(w, prev.instructions, e.instructions) && PinsMoved(w, prev.metrics, e.metrics)
  }

  /** The version against the entry before: kept with the content or with bumping off, else bumped. */
  predicate VersionSettles(w: World, prev: Option<Entry>, e: Entry) {
    match prev
    case None => e.version == Some("0.1.0")
    case Some(p) =>
      var before := if p.version.Some? then p.version.value else "0.1.0";
      if w.noAutoBump || e.(version := None) == p.(version := None) then e.version == Some(before)
      else SemVer.BumpPatch(before).Some? && e.version == SemVer.BumpPatch(before)
  }

  /** What an existing entry becomes. */
  predicate Becomes(w: World, prev: Entry, e: Entry) {
    match prev.name
    case None => e == prev
    case Some(name) =>
      && (if name in w.reconcile && w.taskNames(name).Some? then FromDirectory(w, name, e) else InPlace(w, prev, e))
      && VersionSettles(w, Some(prev), e)
  }

  lemma CommitsAgree(w: World, path: string)
    ensures HasCommit(w, path) <==> CommitFor(w, path).Some?
    ensures CommitFor(w, path).Some? ==> IsCommit(w, path, CommitFor(w, path).value)
  {
  }

  lemma RefreshedMoves(w: World, pins: Option<seq<Pin>>)
    ensures PinsMoved(w, pins, RefreshedKey(w, pins))
  {
    if pins.Some? {
      forall i | 0 <= i < |pins.value|
        ensures var p, q := pins.value[i], RefreshedPin(w, pins.value[i]);
          && q.path == p.path && q.keys == p.keys
          && if p.path != "" && HasCommit(w, p.path) then q.commit.Sha? && IsCommit(w, p.path, q.commit.id)
             else if p.path != "" && p.commit.Absent? then q.commit.Null?
             else q.commit == p.commit
      {
        CommitsAgree(w, pins.value[i].path);
      }
    }
  }

  lemma PinnedPins(w: World, paths: seq<string>)
    requires Resolvable(w, paths)
    ensures PinsPaths(w, Some(Pinned(w, paths)), paths)
  {
    forall i | 0 <= i < |paths|
      ensures IsCommit(w, paths[i], CommitFor(w, paths[i]).value)
    {
      CommitsAgree(w, paths[i]);
    }
  }

  lemma BuiltIsFromDirectory(w: World, name: string)
    requires Built(w, name).Success?
    ensures Built(w, name).value.Some? <==> w.taskNames(name).Some?
    ensures Built(w, name).value.Some? ==>
      FromDirectory(w, name, Built(w, name).value.value) && Built(w, name).value.value.version == Some("0.1.0")
  {
    if w.taskNames(name).Some? {
      PinnedPins(w, TaskPaths(name, w.taskNames(name).value));
      PinnedPins(w, ScenarioPaths(w, name));
      PinnedPins(w, w.instructionPaths);
      PinnedPins(w, [METRIC_SCRIPT_PATH]);
    }
  }

  lemma RefreshedIsInPlace(w: World, prev: Entry)
    ensures InPlace(w, prev, Refreshed(w, prev))
  {
    RefreshedMoves(w, prev.tasks);
    RefreshedMoves(w, prev.scenarios);
    RefreshedMoves(w, prev.instructions);
    RefreshedMoves(w, prev.metrics);
  }

  lemma VersionedSettles(w: World, e: Entry, prev: Option<Entry>)
    requires e.name.Some? && (prev.None? ==> e.version == Some("0.1.0")) && Versioned(w, e, prev).Success?
    ensures var f := Versioned(w, e, prev).value.0; f == e.(version := f.version) && VersionSettles(w, prev, f)
  {
  }

  lemma RenewedBecomes(w: World, prev: Entry)
    requires prev.name.Some? && Renewed(w, prev).Success?
    ensures Becomes(w, prev, Renewed(w, prev).value.0)
  {
    var name, e := prev.name.value, Candidate(w, prev).value;
    RefreshedIsInPlace(w, prev);
    if name in w.reconcile {
      BuiltIsFromDirectory(w, name);
    }
    VersionedSettles(w, e, Some(prev));
  }

  /**
   What a run makes of every entry the registry had, except the unified one: nameless entries stay
   as they are; a reconciled scenario that is still on disk is built from its directory; any other
   entry keeps all it says but for its pins. The version follows the content.
   */
  lemma EveryEntryIsCurrent(w: World, existing: seq<Entry>, i: nat)
    requires ValidWorld(w) && Updated(w, existing).Success? && i < |Kept(w, existing)|
    ensures i < |Updated(w, existing).value.registry| && Becomes(w, Kept(w, existing)[i], Updated(w, existing).value.registry[i])
  {
    NothingIsDropped(w, existing);
    var registry, kept := Updated(w, existing).value.registry, Kept(w, existing);
    assert Follows(w, kept[i], registry[..|kept|][i]);
    if kept[i].name.Some? {
      RenewedBecomes(w, kept[i]);
    }
  }

  // ---- the scenarios that come new ---------------------------------------------------------------

  /** Reconciled scenario `n` comes new: no existing entry has its name, it is on disk, and it is not the union's. */
  function ComesNew(w: World, seen: set<string>): nat -> bool {
    (n: nat) => n < |w.reconcile| && w.reconcile[n] !in seen && w.taskNames(w.reconcile[n]).Some?
                && !(w.addUnified && w.reconcile[n] == w.unifiedName)
  }

  /** The entries are those of the reconciled scenarios at `idx`, built from their directories. */
  predicate Newcomers(w: World, entries: seq<Entry>, idx: seq<nat>) {
    |entries| == |idx| && forall k :: 0 <= k < |idx| ==>
      idx[k] < |w.reconcile| && FromDirectory(w, w.reconcile[idx[k]], entries[k]) && entries[k].version == Some("0.1.0")
  }

  lemma KeptOfMore(w: World, entries: seq<Entry>, e: Entry)
    ensures Kept(w, entries + [e]) == Kept(w, entries) + (if IsUnified(w, e) then [] else [e])
  {
    assert (entries + [e])[..|entries|] == entries;
  }

  /** After the first `n` reconciled scenarios, `entries` are `registry` and the newcomers `added` behind it. */
  ghost predicate Placed(w: World, seen: set<string>, registry: seq<Entry>, entries: seq<Entry>, added: seq<Entry>, idx: seq<nat>, n: nat) {
    Kept(w, entries) == registry + added && Lists(idx, n, ComesNew(w, seen)) && Newcomers(w, added, idx)
  }

  lemma PlacedSkips(w: World, seen: set<string>, registry: seq<Entry>, entries: seq<Entry>, after: seq<Entry>,
                    added: seq<Entry>, idx: seq<nat>, n: nat)
    requires Placed(w, seen, registry, entries, added, idx, n) && !ComesNew(w, seen)(n) && Kept(w, after) == Kept(w, entries)
    ensures Placed(w, seen, registry, after, added, idx, n + 1)
  {
    ListsGrow(idx, n, ComesNew(w, seen), ComesNew(w, seen));
  }

  lemma PlacedGrows(w: World, seen: set<string>, registry: seq<Entry>, entries: seq<Entry>, added: seq<Entry>, idx: seq<nat>,
                    e: Entry, n: nat)
    requires Placed(w, seen, registry, entries, added, idx, n) && ComesNew(w, seen)(n)
    requires FromDirectory(w, w.reconcile[n], e) && e.version == Some("0.1.0")
    ensures Placed(w, seen, registry, entries + [e], added + [e], idx + [n], n + 1)
  {
    ListsGrow(idx, n, ComesNew(w, seen), ComesNew(w, seen));
    KeptOfMore(w, entries, e);
    NewcomersGrow(w, added, idx, e, n);
    Regrouped(registry, added, e);
  }

  lemma Regrouped(registry: seq<Entry>, added: seq<Entry>, e: Entry)
    ensures registry + added + [e] == registry + (added + [e])
  {
  }

  lemma NewcomersGrow(w: World, added: seq<Entry>, idx: seq<nat>, e: Entry, n: nat)
    requires Newcomers(w, added, idx) && n < |w.reconcile| && FromDirectory(w, w.reconcile[n], e) && e.version == Some("0.1.0")
    ensures Newcomers(w, added + [e], idx + [n])
  {
  }

  lemma AppendedSteps(w: World, seen: set<string>, registry: seq<Entry>, n: nat, before: seq<Entry>)
    requires n < |w.reconcile| && Appended(w, seen, registry, n) == Success(before)
    requires Appended(w, seen, registry, n + 1).Success?
    ensures var name, after := w.reconcile[n], Appended(w, seen, registry, n + 1).value;
      if name !in seen && w.taskNames(name).Some?
      then Built(w, name).Success? && Built(w, name).value.Some? && after == before + [Built(w, name).value.value]
      else after == before
  {
    if Built(w, w.reconcile[n]).Success? {
      BuiltIsFromDirectory(w, w.reconcile[n]);
    }
  }

  lemma OneMorePlaced(w: World, seen: set<string>, registry: seq<Entry>, n: nat, before: seq<Entry>, had: seq<Entry>, at: seq<nat>)
    returns (added: seq<Entry>, idx: seq<nat>)
    requires n < |w.reconcile| && Appended(w, seen, registry, n) == Success(before)
    requires Appended(w, seen, registry, n + 1).Success? && Placed(w, seen, registry, before, had, at, n)
    ensures Placed(w, seen, registry, Appended(w, seen, registry, n + 1).value, added, idx, n + 1)
  {
    var name := w.reconcile[n];
    AppendedSteps(w, seen, registry, n, before);
    added, idx := had, at;
    if name !in seen && w.taskNames(name).Some? {
      var e := Built(w, name).value.value;
      BuiltIsFromDirectory(w, name);
      if IsUnified(w, e) {
        KeptOfMore(w, before, e);
        PlacedSkips(w, seen, registry, before, before + [e], had, at, n);
      } else {
        PlacedGrows(w, seen, registry, before, had, at, e, n);
        added, idx := had + [e], at + [n];
      }
    } else {
      PlacedSkips(w, seen, registry, before, before, had, at, n);
    }
  }

  lemma {:induction false} AppendedInOrder(w: World, seen: set<string>, registry: seq<Entry>, n: nat)
    returns (added: seq<Entry>, idx: seq<nat>)
    requires n <= |w.reconcile| && Kept(w, registry) == registry && Appended(w, seen, registry, n).Success?
    ensures Placed(w, seen, registry, Appended(w, seen, registry, n).value, added, idx, n)
  {
    if n == 0 {
      added, idx := [], [];
    } else {
      added, idx := AppendedInOrder(w, seen, registry, n - 1);
      added, idx := OneMorePlaced(w, seen, registry, n - 1, Appended(w, seen, registry, n - 1).value, added, idx);
    }
  }

  lemma WalkedIsKept(w: World, existing: seq<Entry>)
    requires Walked(w, existing, |existing|).Success?
    ensures var registry := Walked(w, existing, |existing|).value.registry;
      Kept(w, registry) == registry && |registry| == |Kept(w, existing)|
  {
    WalkFollows(w, existing, |existing|);
    assert existing[..|existing|] == existing;
    if w.addUnified {
      KeptIsNotUnified(w, existing, Walked(w, existing, |existing|).value.registry);
      OthersOfStaying(w, Walked(w, existing, |existing|).value.registry);
    }
  }

  /**
   Between the entries it had and the unified one, the new registry holds exactly the reconciled
   scenarios that are on disk and that no existing entry names, in their order, each built from its
   directory at the default version.
   */
  lemma NewcomersInOrder(w: World, existing: seq<Entry>) returns (idx: seq<nat>)
    requires ValidWorld(w) && Updated(w, existing).Success?
    ensures var registry := Updated(w, existing).value.registry; var end := |registry| - (if w.addUnified then 1 else 0);
      && |Kept(w, existing)| <= end
      && Lists(idx, |w.reconcile|, ComesNew(w, Names(existing)))
      && Newcomers(w, registry[|Kept(w, existing)|..end], idx)
  {
    var walked := Walked(w, existing, |existing|).value.registry;
    WalkedIsKept(w, existing);
    var added;
    added, idx := AppendedInOrder(w, Names(existing), walked, |w.reconcile|);
    if w.addUnified {
      var u := UnifiedRun(w, existing);
      Between(walked, added, [u]);
    } else {
      assert walked + added == walked + added + [];
      Between(walked, added, []);
    }
  }

  lemma Between(front: seq<Entry>, middle: seq<Entry>, back: seq<Entry>)
    ensures (front + middle + back)[|front|..|front| + |middle|] == middle
  {
  }

  // ---- the unified entry's version and metric ----------------------------------------------------

  /** `prev` is the last existing entry of the name, if there is one. */
  ghost predicate IsLastNamed(existing: seq<Entry>, name: string, prev: Option<Entry>) {
    match prev
    case None => forall i :: 0 <= i < |existing| ==> existing[i].name != Some(name)
    case Some(e) =>
      e.name == Some(name) && exists j :: 0 <= j < |existing| && existing[j] == e
                                          && forall i :: j < i < |existing| ==> existing[i].name != Some(name)
  }

  lemma {:induction false} NamedPosition(existing: seq<Entry>, name: string) returns (j: nat)
    requires Named(existing, name).Some?
    ensures j < |existing| && Named(existing, name) == Some(existing[j]) && existing[j].name == Some(name)
    ensures forall i :: j < i < |existing| ==> existing[i].name != Some(name)
  {
    if existing[|existing| - 1].name == Some(name) {
      j := |existing| - 1;
    } else {
      j := NamedPosition(existing[..|existing| - 1], name);
    }
  }

  lemma {:induction false} NoneNamed(existing: seq<Entry>, name: string)
    requires Named(existing, name).None?
    ensures forall i :: 0 <= i < |existing| ==> existing[i].name != Some(name)
  {
    if existing != [] {
      NoneNamed(existing[..|existing| - 1], name);
    }
  }

  lemma NamedIsLastNamed(existing: seq<Entry>, name: string)
    ensures IsLastNamed(existing, name, Named(existing, name))
  {
    if Named(existing, name).None? {
      NoneNamed(existing, name);
    } else {
      var j := NamedPosition(existing, name);
    }
  }

  /** The unified entry's version follows its content since the last existing entry of its name; its metric is the shared script. */
  lemma UnionIsVersioned(w: World, existing: seq<Entry>) returns (prev: Option<Entry>, id: string)
    requires ValidWorld(w) && Updated(w, existing).Success? && w.addUnified
    ensures IsLastNamed(existing, w.unifiedName, prev)
    ensures var registry := Updated(w, existing).value.registry;
      && |registry| > 0 && VersionSettles(w, prev, registry[|registry| - 1])
      && registry[|registry| - 1].metrics == Some([Pin(METRIC_SCRIPT_PATH, Sha(id), "")])
    ensures if w.pin.Some? && w.pin.value != "" then id == w.pin.value else w.commits(METRIC_SCRIPT_PATH) == Some(id)
  {
    var entries := Real(w, existing);
    prev, id := Named(existing, w.unifiedName), MetricCommit(w).value;
    NamedIsLastNamed(existing, w.unifiedName);
    VersionedSettles(w, Unified(w, entries, id), prev);
    var u := UnifiedRun(w, existing);
  }

  // ---- the bumps, and when the run goes through --------------------------------------------------

  /** The bump an entry's renewal logs: one if its content moved and bumping is on. */
  function BumpOf(w: World, prev: Entry, e: Entry): seq<Bump>
    requires e.version.Some? || prev.name.None?
  {
    if prev.name.None? || w.noAutoBump || e.(version := None) == prev.(version := None) then []
    else [Bump(prev.name.value, if prev.version.Some? then prev.version.value else "0.1.0", e.version.value)]
  }

  /** The entries' bumps, in order. */
  ghost predicate Logs(w: World, kept: seq<Entry>, registry: seq<Entry>, parts: seq<seq<Bump>>) {
    && |kept| == |registry| == |parts|
    && forall i :: 0 <= i < |kept| ==>
         (registry[i].version.Some? || kept[i].name.None?) && parts[i] == BumpOf(w, kept[i], registry[i])
  }

  lemma RenewedLogs(w: World, prev: Entry)
    requires prev.name.Some? && Renewed(w, prev).Success?
    ensures var (e, bumps) := Renewed(w, prev).value; e.version.Some? && bumps == BumpOf(w, prev, e)
  {
    CandidateIsSettled(w, prev, "");
  }

  lemma LogsMore(w: World, kept: seq<Entry>, registry: seq<Entry>, parts: seq<seq<Bump>>, prev: Entry, e: Entry, part: seq<Bump>)
    requires Logs(w, kept, registry, parts)
    requires (e.version.Some? || prev.name.None?) && part == BumpOf(w, prev, e)
    ensures Logs(w, kept + [prev], registry + [e], parts + [part]) && Flat(parts + [part]) == Flat(parts) + part
  {
    FlatOfMore(parts, part);
  }

  lemma {:induction false} WalkLogs(w: World, existing: seq<Entry>, n: nat) returns (parts: seq<seq<Bump>>)
    requires n <= |existing| && Walked(w, existing, n).Success?
    ensures var out := Walked(w, existing, n).value;
      Logs(w, Kept(w, existing[..n]), out.registry, parts) && out.bumps == Flat(parts)
  {
    if n == 0 {
      parts := [];
    } else {
      parts := WalkLogs(w, existing, n - 1);
      KeptOfOne(w, existing, n - 1);
      var before, prev := Walked(w, existing, n - 1).value, existing[n - 1];
      var kept := Kept(w, existing[..n - 1]);
      if prev.name.None? {
        LogsMore(w, kept, before.registry, parts, prev, prev, []);
        parts := parts + [[]];
        assert before.bumps + [] == before.bumps;
      } else if !IsUnified(w, prev) {
        var (e, bumps) := Renewed(w, prev).value;
        RenewedLogs(w, prev);
        LogsMore(w, kept, before.registry, parts, prev, e, bumps);
        parts := parts + [bumps];
      }
    }
  }

  /**
   The bumps a run without the union reports are, in registry order, one for each existing entry whose
   content moved while bumping is on, with the version before and after, and no other.
   */
  lemma BumpsAreTheChanges(w: World, existing: seq<Entry>) returns (parts: seq<seq<Bump>>)
    requires ValidWorld(w) && Updated(w, existing).Success? && !w.addUnified
    ensures var out := Updated(w, existing).value;
      && |existing| <= |out.registry| && Logs(w, existing, out.registry[..|existing|], parts)
      && out.bumps == Flat(parts)
  {
    parts := WalkLogs(w, existing, |existing|);
    assert existing[..|existing|] == existing;
    AppendedAreNew(w, Names(existing), Walked(w, existing, |existing|).value.registry, |w.reconcile|);
  }

  lemma PathsPinOnce(w: World, pins: Option<seq<Pin>>, others: Option<seq<Pin>>, paths: seq<string>)
    requires PinsPaths(w, pins, paths) && PinsPaths(w, others, paths)
    ensures pins == others
  {
    forall i | 0 <= i < |paths|
      ensures pins.value[i] == others.value[i]
    {
    }
    assert pins.value == others.value;
  }

  lemma PinsMoveOnce(w: World, before: Option<seq<Pin>>, after: Option<seq<Pin>>, other: Option<seq<Pin>>)
    requires PinsMoved(w, before, after) && PinsMoved(w, before, other)
    ensures after == other
  {
    if before.Some? {
      forall i | 0 <= i < |before.value|
        ensures after.value[i] == other.value[i]
      {
      }
      assert after.value == other.value;
    }
  }

  lemma PathsHaveCommits(w: World, pins: Option<seq<Pin>>, paths: seq<string>)
    requires PinsPaths(w, pins, paths)
    ensures Resolvable(w, paths)
  {
    forall i | 0 <= i < |paths|
      ensures CommitFor(w, paths[i]).Some?
    {
      CommitsAgree(w, paths[i]);
    }
  }

  /** A directory gives one entry at most, and the build finds it. */
  lemma DirectoryGivesOne(w: World, name: string, e: Entry)
    requires FromDirectory(w, name, e)
    ensures Built(w, name).Success? && Built(w, name).value.Some?
    ensures e.(version := None) == Built(w, name).value.value.(version := None)
  {
    var tasks := w.taskNames(name).value;
    var paths := TaskPaths(name, tasks);
    assert paths == seq(|tasks|, i requires 0 <= i < |tasks| => "tasks/" + name + "/" + tasks[i]);
    PathsHaveCommits(w, e.tasks, paths);
    PathsHaveCommits(w, e.scenarios, ScenarioPaths(w, name));
    PathsHaveCommits(w, e.instructions, w.instructionPaths);
    PathsHaveCommits(w, e.metrics, [METRIC_SCRIPT_PATH]);
    BuiltIsFromDirectory(w, name);
    var f := Built(w, name).value.value;
    PathsPinOnce(w, e.tasks, f.tasks, paths);
    PathsPinOnce(w, e.scenarios, f.scenarios, ScenarioPaths(w, name));
    PathsPinOnce(w, e.instructions, f.instructions, w.instructionPaths);
    PathsPinOnce(w, e.metrics, f.metrics, [METRIC_SCRIPT_PATH]);
  }

  lemma RefreshGivesOne(w: World, prev: Entry, e: Entry)
    requires InPlace(w, prev, e)
    ensures e.(version := None) == Refreshed(w, prev).(version := None)
  {
    RefreshedIsInPlace(w, prev);
    PinsMoveOnce(w, prev.tasks, e.tasks, Refreshed(w, prev).tasks);
    PinsMoveOnce(w, prev.scenarios, e.scenarios, Refreshed(w, prev).scenarios);
    PinsMoveOnce(w, prev.instructions, e.instructions, Refreshed(w, prev).instructions);
    PinsMoveOnce(w, prev.metrics, e.metrics, Refreshed(w, prev).metrics);
  }

  /** A named entry can be renewed exactly if there is something for it to become, and it becomes just that. */
  lemma RenewsExactly(w: World, prev: Entry)
    requires prev.name.Some?
    ensures Renewed(w, prev).Success? <==> exists e :: Becomes(w, prev, e)
    ensures Renewed(w, prev).Success? ==> forall e :: Becomes(w, prev, e) <==> e == Renewed(w, prev).value.0
  {
    if Renewed(w, prev).Success? {
      RenewedBecomes(w, prev);
    }
    forall e | Becomes(w, prev, e)
      ensures Renewed(w, prev).Success? && e == Renewed(w, prev).value.0
    {
      BecomesOne(w, prev, e);
    }
  }

  lemma BecomesOne(w: World, prev: Entry, e: Entry)
    requires prev.name.Some? && Becomes(w, prev, e)
    ensures Renewed(w, prev).Success? && e == Renewed(w, prev).value.0
  {
    var name := prev.name.value;
    if name in w.reconcile && w.taskNames(name).Some? {
      DirectoryGivesOne(w, name, e);
    } else {
      RefreshGivesOne(w, prev, e);
    }
    assert Candidate(w, prev).Success? && e.(version := None) == Candidate(w, prev).value.(version := None);
  }

  /** There is something for the entry to become. */
  ghost predicate Renewable(w: World, prev: Entry) {
    prev.name.Some? ==> exists e :: Becomes(w, prev, e)
  }

  /** The walk gets past the entry. */
  ghost predicate WalksPast(w: World, e: Entry) {
    IsUnified(w, e) || Renewable(w, e)
  }

  lemma WalkStepSucceeds(w: World, existing: seq<Entry>, n: nat)
    requires n < |existing|
    ensures Walked(w, existing, n + 1).Success?
       <==> Walked(w, existing, n).Success? && WalksPast(w, existing[n])
  {
    if existing[n].name.Some? {
      RenewsExactly(w, existing[n]);
    }
  }

  /** Whether the walk came through its first `n` entries. */
  function CameThrough(w: World, existing: seq<Entry>): nat -> bool {
    (n: nat) => n <= |existing| && Walked(w, existing, n).Success?
  }

  lemma {:induction false} StepByStep(w: World, existing: seq<Entry>, through: nat -> bool, n: nat)
    requires n <= |existing| && through(0)
    requires forall i: nat :: i < |existing| ==> (through(i + 1) <==> through(i) && WalksPast(w, existing[i]))
    ensures through(n) <==> forall i :: 0 <= i < n ==> WalksPast(w, existing[i])
  {
    if n > 0 {
      StepByStep(w, existing, through, n - 1);
      assert through((n - 1) + 1) <==> through(n - 1) && WalksPast(w, existing[n - 1]);
    }
  }

  lemma WalkSucceeds(w: World, existing: seq<Entry>)
    ensures Walked(w, existing, |existing|).Success? <==> forall i :: 0 <= i < |existing| ==> WalksPast(w, existing[i])
  {
    forall i: nat | i < |existing|
      ensures CameThrough(w, existing)(i + 1) <==> CameThrough(w, existing)(i) && WalksPast(w, existing[i])
    {
      WalkStepSucceeds(w, existing, i);
    }
    StepByStep(w, existing, CameThrough(w, existing), |existing|);
  }

  /** The scenario can be built, if it is on disk at all. */
  ghost predicate Buildable(w: World, name: string) {
    w.taskNames(name).Some? ==> exists e :: FromDirectory(w, name, e)
  }

  lemma BuildsExactly(w: World, name: string)
    ensures Built(w, name).Success? <==> Buildable(w, name)
  {
    if Built(w, name).Success? {
      BuiltIsFromDirectory(w, name);
    } else if Buildable(w, name) {
      var e :| FromDirectory(w, name, e);
      DirectoryGivesOne(w, name, e);
    }
  }

  lemma {:induction false} AppendSucceeds(w: World, seen: set<string>, registry: seq<Entry>, n: nat)
    requires n <= |w.reconcile|
    ensures Appended(w, seen, registry, n).Success? <==>
      forall i :: 0 <= i < n && w.reconcile[i] !in seen ==> Buildable(w, w.reconcile[i])
  {
    if n > 0 {
      AppendSucceeds(w, seen, registry, n - 1);
      BuildsExactly(w, w.reconcile[n - 1]);
    }
  }

  /**
   A run without the union goes through exactly if there is anything to do, every named entry has
   something to become, and every new scenario that is on disk can be built.
   */
  lemma RunSucceedsExactly(w: World, existing: seq<Entry>)
    requires !w.addUnified
    ensures Updated(w, existing).Success? <==>
      && (existing != [] || w.discovered != {})
      && (forall i :: 0 <= i < |existing| ==> Renewable(w, existing[i]))
      && (forall i :: 0 <= i < |w.reconcile| && (forall e :: e in existing ==> e.name != Some(w.reconcile[i]))
                      ==> Buildable(w, w.reconcile[i]))
  {
    WalkSucceeds(w, existing);
    if Walked(w, existing, |existing|).Success? {
      AppendSucceeds(w, Names(existing), Walked(w, existing, |existing|).value.registry, |w.reconcile|);
    }
    assert forall name :: name in Names(existing) <==> exists e :: e in existing && e.name == Some(name);
  }
}
