/**
 The registry updater as the program runs it: entries are refreshed pin by pin, and the registry
 and the bump log grow as it walks. Every stage is proved against the function that specifies it,
 so the theorems about runs hold of it.
 */
module RegistryUpdater {
  import opened Wrappers
  import opened Registry
  import RegistryTheorems
  import SemVer

  class Updater {
    const world: World
    var registry: seq<Entry>
    var bumped: seq<Bump>
    var seen: set<string>
    var unresolved: seq<string>

    constructor (world: World)
      ensures this.world == world && registry == [] && bumped == [] && seen == {} && unresolved == []
    {
      this.world := world;
      registry, bumped, seen, unresolved := [], [], {}, [];
    }

    method RefreshPins(pins: Option<seq<Pin>>) returns (refreshed: Option<seq<Pin>>)
      modifies this`unresolved
      ensures refreshed == RefreshedKey(world, pins)
      ensures unresolved == old(unresolved) + UnresolvedKey(world, pins)
    {
      if pins.None? {
        return None;
      }
      var items := pins.value;
      for i := 0 to |items|
        invariant |items| == |pins.value|
        invariant forall j :: 0 <= j < i ==> items[j] == RefreshedPin(world, pins.value[j])
        invariant forall j :: i <= j < |items| ==> items[j] == pins.value[j]
        invariant unresolved == old(unresolved) + Unresolved(world, pins.value[..i])
      {
        assert pins.value[..i + 1][..i] == pins.value[..i];
        var item := items[i];
        if item.path != "" {
          var sha := if world.pin.Some? then world.pin else world.commits(item.path);
          if sha.None? {
            unresolved := unresolved + [item.path];
            items := items[i := item.(commit := if item.commit.Absent? then Null else item.commit)];
          } else {
            items := items[i := item.(commit := Sha(sha.value))];
          }
        }
      }
      assert pins.value[..|items|] == pins.value;
      assert items == RefreshedPins(world, pins.value);
      return Some(items);
    }

    method RefreshEntryCommits(prev: Entry) returns (entry: Entry)
      modifies this`unresolved
      ensures entry == Refreshed(world, prev)
      ensures unresolved == old(unresolved) + UnresolvedIn(world, prev)
    {
      var tasks := RefreshPins(prev.tasks);
      var scenarios := RefreshPins(prev.scenarios);
      var instructions := RefreshPins(prev.instructions);
      var metrics := RefreshPins(prev.metrics);
      entry := prev.(tasks := tasks, scenarios := scenarios, instructions := instructions, metrics := metrics);
      InOneList(old(unresolved), UnresolvedKey(world, prev.tasks), UnresolvedKey(world, prev.scenarios),
                UnresolvedKey(world, prev.instructions), UnresolvedKey(world, prev.metrics));
    }

    method ResolveVersion(entry: Entry, prev: Option<Entry>) returns (r: Result<Entry, Error>)
      requires entry.name.Some?
      modifies this`bumped
      ensures match Versioned(world, entry, prev)
              case Failure(error) => r == Failure(error) && bumped == old(bumped)
              case Success((versioned, bumps)) => r == Success(versioned) && bumped == old(bumped) + bumps
    {
      if prev.None? {
        return Success(entry);
      }
      var prevVersion := if prev.value.version.Some? then prev.value.version.value else DEFAULT_VERSION;
      if prev.value.(version := None) == entry.(version := None) || world.noAutoBump {
        return Success(entry.(version := Some(prevVersion)));
      }
      var next := SemVer.BumpPatch(prevVersion);
      if next.None? {
        return Failure(CannotBump(prevVersion));
      }
      bumped := bumped + [Bump(entry.name.value, prevVersion, next.value)];
      return Success(entry.(version := Some(next.value)));
    }

    method Renew(prev: Entry) returns (r: Result<Entry, Error>)
      requires prev.name.Some?
      modifies this`bumped, this`unresolved
      ensures match Renewed(world, prev)
              case Failure(error) => r == Failure(error) && bumped == old(bumped)
              case Success((entry, bumps)) => r == Success(entry) && bumped == old(bumped) + bumps
    {
      var entry;
      if prev.name.value in world.reconcile {
        var built := Built(world, prev.name.value);
        if built.Failure? {
          return Failure(built.error);
        }
        if built.value.None? {
          entry := RefreshEntryCommits(prev);
        } else {
          entry := built.value.value;
        }
      } else {
        entry := RefreshEntryCommits(prev);
      }
      r := ResolveVersion(entry, Some(prev));
    }

    method Walk(existing: seq<Entry>) returns (error: Option<Error>)
      requires registry == [] && bumped == [] && seen == {}
      modifies this
      ensures match Walked(world, existing, |existing|)
              case Failure(e) => error == Some(e)
              case Success(out) => error == None && out == Output(registry, bumped) && seen == Names(existing)
    {
      for i := 0 to |existing|
        invariant Walked(world, existing, i) == Success(Output(registry, bumped))
        invariant seen == Names(existing[..i])
      {
        var prev := existing[i];
        NamesOfMore(existing, i);
        if prev.name.None? {
          registry := registry + [prev];
        } else {
          seen := seen + {prev.name.value};
          if !(world.addUnified && prev.name.value == world.unifiedName) {
            var r := Renew(prev);
            if r.Failure? {
              WalkFails(world, existing, i + 1, |existing|);
              return Some(r.error);
            }
            registry := registry + [r.value];
          }
        }
      }
      assert existing[..|existing|] == existing;
      return None;
    }

    method AppendDiscovered() returns (error: Option<Error>)
      modifies this`registry
      ensures match Appended(world, seen, old(registry), |world.reconcile|)
              case Failure(e) => error == Some(e)
              case Success(entries) => error == None && registry == entries
    {
      for i := 0 to |world.reconcile|
        invariant Appended(world, seen, old(registry), i) == Success(registry)
      {
        if world.reconcile[i] !in seen {
          var built := Built(world, world.reconcile[i]);
          if built.Failure? {
            AppendFails(world, seen, old(registry), i + 1, |world.reconcile|);
            return Some(built.error);
          }
          if built.value.Some? {
            registry := registry + [built.value.value];
          }
        }
      }
      return None;
    }

    /** The registry filtered of the unified name, the rebuilt unified entry appended. */
    method AddUnified(existing: seq<Entry>) returns (error: Option<Error>)
      modifies this`registry, this`bumped
      ensures match WithUnified(world, existing, old(Output(registry, bumped)))
              case Failure(e) => error == Some(e)
              case Success(out) => error == None && out == Output(registry, bumped)
    {
      var others := [];
      for i := 0 to |registry|
        invariant AllNamed(registry[..i])
        invariant others == Others(world, registry[..i])
      {
        assert registry[..i + 1] == registry[..i] + [registry[i]];
        if registry[i].name.None? {
          return Some(NamelessEntry);
        }
        if registry[i].name.value != world.unifiedName {
          others := others + [registry[i]];
        }
      }
      assert registry[..|registry|] == registry;
      var commit := MetricCommit(world);
      if commit.None? {
        return Some(NoHistory);
      }
      var unified := ResolveVersion(Unified(world, registry, commit.value), Named(existing, world.unifiedName));
      if unified.Failure? {
        return Some(unified.error);
      }
      registry := others + [unified.value];
      return None;
    }

    /** One run. Given its own output back, the same run changes nothing unless the unified name is shadowed. */
    method Run(existing: seq<Entry>) returns (r: Result<Output, Error>)
      requires ValidWorld(world) && registry == [] && bumped == [] && seen == {}
      modifies this
      ensures r == Updated(world, existing)
      ensures r.Success? ==>
        (Updated(world, r.value.registry) == Success(Output(r.value.registry, []))
         <==> !RegistryTheorems.Shadowed(world, existing))
    {
      if existing == [] && world.discovered == {} {
        return Failure(NothingToDo);
      }
      var error := Walk(existing);
      if error.Some? {
        return Failure(error.value);
      }
      error := AppendDiscovered();
      if error.Some? {
        return Failure(error.value);
      }
      if world.addUnified {
        error := AddUnified(existing);
        if error.Some? {
          return Failure(error.value);
        }
      }
      r := Success(Output(registry, bumped));
      RegistryTheorems.SecondRunChangesNothing(world, existing);
    }
  }

  lemma InOneList(start: seq<string>, a: seq<string>, b: seq<string>, c: seq<string>, d: seq<string>)
    ensures start + a + b + c + d == start + (a + b + c + d)
  {
  }

  lemma NamesOfMore(entries: seq<Entry>, i: nat)
    requires i < |entries|
    ensures Names(entries[..i + 1])
         == Names(entries[..i]) + (if entries[i].name.Some? then {entries[i].name.value} else {})
  {
    assert entries[..i + 1] == entries[..i] + [entries[i]];
  }

  lemma {:induction false} WalkFails(w: World, existing: seq<Entry>, m: nat, n: nat)
    requires m <= n <= |existing| && Walked(w, existing, m).Failure?
    ensures Walked(w, existing, n) == Walked(w, existing, m)
  {
    if m < n {
      WalkFails(w, existing, m, n - 1);
    }
  }

  lemma {:induction false} AppendFails(w: World, seen: set<string>, registry: seq<Entry>, m: nat, n: nat)
    requires m <= n <= |w.reconcile| && Appended(w, seen, registry, m).Failure?
    ensures Appended(w, seen, registry, n) == Appended(w, seen, registry, m)
  {
    if m < n {
      AppendFails(w, seen, registry, m, n - 1);
    }
  }
}
