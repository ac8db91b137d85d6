/**
 Member accounts of the testing organization: the `<scenario>/<tag>` tag value, provisioning that
 may be cut short between any two calls and run again, and resolution of the organizational unit
 into one account per (scenario, tag).
 */
module Accounts {
  import opened Wrappers

  // ---- the tag value -----------------------------------------------------------------------

  function FormatTagValue(scenario: string, tag: string): string {
    scenario + "/" + tag
  }

  /** The position of the first slash, or the length if there is none. */
  function FirstSlash(value: string): (i: nat)
    ensures i <= |value| && (forall j :: 0 <= j < i ==> value[j] != '/') && (i < |value| ==> value[i] == '/')
  {
    SlashFrom(value, 0)
  }

  function SlashFrom(value: string, from: nat): (i: nat)
    requires from <= |value| && forall j :: 0 <= j < from ==> value[j] != '/'
    ensures i <= |value| && (forall j :: 0 <= j < i ==> value[j] != '/') && (i < |value| ==> value[i] == '/')
    decreases |value| - from
  {
    if from == |value| || value[from] == '/' then from else SlashFrom(value, from + 1)
  }

  function ParseTagValue(value: string): Option<(string, string)> {
    var i := FirstSlash(value);
    if i == |value| || i == 0 || i + 1 == |value| then None else Some((value[..i], value[i + 1..]))
  }

  /** What the printer needs of its arguments for the parser to undo it. */
  predicate Printable(scenario: string, tag: string) {
    scenario != "" && '/' !in scenario && tag != ""
  }

  /** The parser undoes the printer exactly on the printable pairs. */
  lemma ParseUndoesFormat(scenario: string, tag: string)
    ensures ParseTagValue(FormatTagValue(scenario, tag)) == Some((scenario, tag)) <==> Printable(scenario, tag)
  {
    var value := FormatTagValue(scenario, tag);
    var i := FirstSlash(value);
    assert value[|scenario|] == '/';
    assert forall j :: 0 <= j < |scenario| ==> value[j] == scenario[j];
    if '/' !in scenario {
      assert i == |scenario|;
      assert value[..i] == scenario && value[i + 1..] == tag;
    }
  }

  /** The printer undoes the parser on every value the parser accepts. */
  lemma FormatUndoesParse(value: string)
    ensures ParseTagValue(value).Some? ==>
      var (scenario, tag) := ParseTagValue(value).value;
      FormatTagValue(scenario, tag) == value && Printable(scenario, tag)
  {
    var i := FirstSlash(value);
    if i < |value| {
      assert value == value[..i] + "/" + value[i + 1..];
    }
  }

  // ---- the organization ----------------------------------------------------------------------

  /** An account; its id is its position in the organization, never given to another account. */
  datatype Account = Account(active: bool, inUnit: bool, scenarioTag: Option<string>, shaTag: Option<string>)

  type Organization = seq<Account>

  /** Account `i` is listed in the unit and tagged for (scenario, tag). */
  predicate Tagged(org: Organization, i: nat, scenario: string, tag: string) {
    && i < |org| && org[i].inUnit
    && org[i].scenarioTag.Some?
    && ParseTagValue(org[i].scenarioTag.value) == Some((scenario, tag))
  }

  predicate Carries(org: Organization, i: nat, scenario: string, tag: string) {
    Tagged(org, i, scenario, tag) && org[i].active
  }

  /** No two ACTIVE accounts of the unit carry one (scenario, tag) pair. */
  ghost predicate Unique(org: Organization) {
    forall i: nat, j: nat, scenario, tag ::
      Carries(org, i, scenario, tag) && Carries(org, j, scenario, tag) ==> i == j
  }

  /** The same for one scenario alone. */
  ghost predicate UniqueIn(org: Organization, scenario: string) {
    forall i: nat, j: nat, tag :: Carries(org, i, scenario, tag) && Carries(org, j, scenario, tag) ==> i == j
  }

  // ---- provisioning, cut short anywhere ----------------------------------------------------------

  datatype Ensured =
    | Duplicated
    | CutShort
    | Completed(accounts: map<string, nat>)

  /** The scan for existing accounts: None if one wanted tag is carried twice. */
  function Existing(org: Organization, scenario: string, wanted: set<string>, n: nat): Option<map<string, nat>>
    requires n <= |org|
  {
    if n == 0 then Some(map[]) else
      var found := Existing(org, scenario, wanted, n - 1);
      if found.None? then None else
        var parsed := if org[n - 1].inUnit && org[n - 1].active && org[n - 1].scenarioTag.Some?
                      then ParseTagValue(org[n - 1].scenarioTag.value) else None;
        if parsed.None? || parsed.value.0 != scenario || parsed.value.1 !in wanted then found
        else if parsed.value.1 in found.value then None
        else Some(found.value[parsed.value.1 := n - 1])
  }

  /**
   What is left in the organization by the create, move, tag and second tag calls of one new
   account when only the first `calls` of them take effect.
   */
  function Created(org: Organization, scenario: string, tag: string, calls: nat): Organization {
    if calls == 0 then org
    else org + [Account(true, calls >= 2,
                        if calls >= 3 then Some(FormatTagValue(scenario, tag)) else None,
                        if calls >= 4 then Some(scenario) else None)]
  }

  /** The creation loop over `tags[k..]`, with `calls` effective calls to go before the cut. */
  function Filled(org: Organization, scenario: string, tags: seq<string>, existing: map<string, nat>,
                  done: map<string, nat>, calls: nat): (Organization, Ensured)
    decreases |tags|
  {
    if tags == [] then (org, Completed(done))
    else if tags[0] in existing then
      Filled(org, scenario, tags[1..], existing, done[tags[0] := existing[tags[0]]], calls)
    else if calls < 4 then (Created(org, scenario, tags[0], calls), CutShort)
    else Filled(Created(org, scenario, tags[0], 4), scenario, tags[1..], existing, done[tags[0] := |org|], calls - 4)
  }

  function Elements(tags: seq<string>): set<string> {
    set t | t in tags
  }

  /** One provisioning run for one scenario, cut short after `calls` effective calls. */
  function EnsureAccounts(org: Organization, scenario: string, tags: seq<string>, calls: nat): (Organization, Ensured) {
    var existing := Existing(org, scenario, Elements(tags), |org|);
    if existing.None? then (org, Duplicated)
    else Filled(org, scenario, tags, existing.value, map[], calls)
  }

  /** `found` maps exactly the wanted tags carried by the first `n` accounts to their carriers. */
  ghost predicate AreCarriers(org: Organization, scenario: string, wanted: set<string>, n: nat, found: map<string, nat>) {
    && (forall tag, i: nat :: tag in wanted && i < n && Carries(org, i, scenario, tag) ==> tag in found && found[tag] == i)
    && (forall tag :: tag in found ==> tag in wanted && found[tag] < n && Carries(org, found[tag], scenario, tag))
  }

  lemma {:induction false} ExistingIsTheCarriers(org: Organization, scenario: string, wanted: set<string>, n: nat)
    requires n <= |org|
    ensures var found := Existing(org, scenario, wanted, n);
      if found.Some? then AreCarriers(org, scenario, wanted, n, found.value) else !UniqueIn(org, scenario)
  {
    if n > 0 {
      ExistingIsTheCarriers(org, scenario, wanted, n - 1);
      var before := Existing(org, scenario, wanted, n - 1);
      if before.Some? && org[n - 1].scenarioTag.Some? && ParseTagValue(org[n - 1].scenarioTag.value).Some? {
        var tag := ParseTagValue(org[n - 1].scenarioTag.value).value.1;
        assert Carries(org, n - 1, scenario, tag) || Existing(org, scenario, wanted, n) == before;
      }
    }
  }

  /** Calls that stop before the tag leave an account nobody resolves; the tag call adds one carrier. */
  lemma CreatedCarriers(org: Organization, scenario: string, tag: string, calls: nat, i: nat, s: string, t: string)
    requires Printable(scenario, tag)
    ensures Carries(Created(org, scenario, tag, calls), i, s, t)
       <==> Carries(org, i, s, t) || (calls >= 3 && i == |org| && s == scenario && t == tag)
  {
    ParseUndoesFormat(scenario, tag);
  }

  /** A new account all of whose calls took effect. */
  predicate Whole(a: Account, scenario: string) {
    a.active && a.inUnit && a.scenarioTag.Some? && a.shaTag == Some(scenario)
  }

  /** A new account after `n` of its four calls: created, moved into the unit, tagged, tagged twice. */
  predicate AfterCalls(a: Account, scenario: string, n: nat) {
    && a.active && (a.inUnit <==> n >= 2) && (a.scenarioTag.Some? <==> n >= 3)
    && a.shaTag == if n >= 4 then Some(scenario) else None
  }

  /**
   What a cut leaves behind: every new account but the last is whole, and so is the last unless its
   own calls were cut - then it is as far as its effective calls got it. Nothing else changes.
   */
  lemma {:induction false} CutsLeaveOnePart(org: Organization, scenario: string, tags: seq<string>,
                                            existing: map<string, nat>, done: map<string, nat>, calls: nat)
    ensures var (after, outcome) := Filled(org, scenario, tags, existing, done, calls);
      && org <= after
      && (outcome.Completed? ==> |after| - |org| <= calls / 4 && forall i :: |org| <= i < |after| ==> Whole(after[i], scenario))
      && (outcome.CutShort? ==>
            && |after| == |org| + calls / 4 + (if calls % 4 > 0 then 1 else 0)
            && (forall i :: |org| <= i < |org| + calls / 4 ==> Whole(after[i], scenario))
            && (calls % 4 > 0 ==> AfterCalls(after[|after| - 1], scenario, calls % 4)))
    decreases |tags|
  {
    if tags != [] {
      if tags[0] in existing {
        CutsLeaveOnePart(org, scenario, tags[1..], existing, done[tags[0] := existing[tags[0]]], calls);
      } else if calls >= 4 {
        CutsLeaveOnePart(Created(org, scenario, tags[0], 4), scenario, tags[1..], existing, done[tags[0] := |org|], calls - 4);
        assert (calls - 4) / 4 == calls / 4 - 1 && (calls - 4) % 4 == calls % 4;
      }
    }
  }

  /** Creating an account for a pair nobody carries keeps every pair unique. */
  lemma CreatedKeepsUnique(org: Organization, scenario: string, tag: string, calls: nat)
    requires Unique(org) && Printable(scenario, tag)
    requires forall i: nat :: !Carries(org, i, scenario, tag)
    ensures Unique(Created(org, scenario, tag, calls))
    ensures forall i: nat, s, t :: Carries(org, i, s, t) ==> Carries(Created(org, scenario, tag, calls), i, s, t)
    ensures calls >= 3 ==> Carries(Created(org, scenario, tag, calls), |org|, scenario, tag)
    ensures forall i: nat, t :: t != tag && Carries(Created(org, scenario, tag, calls), i, scenario, t) ==> Carries(org, i, scenario, t)
  {
    forall i: nat, s, t
      ensures Carries(Created(org, scenario, tag, calls), i, s, t)
         <==> Carries(org, i, s, t) || (calls >= 3 && i == |org| && s == scenario && t == tag)
    {
      CreatedCarriers(org, scenario, tag, calls, i, s, t);
    }
  }

  ghost predicate Distinct(tags: seq<string>) {
    forall i, j :: 0 <= i < j < |tags| ==> tags[i] != tags[j]
  }

  /** A completed loop answers for every tag. */
  lemma {:induction false} FilledAnswersAll(org: Organization, scenario: string, tags: seq<string>,
                                            existing: map<string, nat>, done: map<string, nat>, calls: nat)
    ensures var outcome := Filled(org, scenario, tags, existing, done, calls).1;
      !outcome.Duplicated? && (outcome.Completed? ==> outcome.accounts.Keys == done.Keys + Elements(tags))
    decreases |tags|
  {
    if tags != [] {
      assert Elements(tags) == {tags[0]} + Elements(tags[1..]);
      if tags[0] in existing {
        FilledAnswersAll(org, scenario, tags[1..], existing, done[tags[0] := existing[tags[0]]], calls);
      } else if calls >= 4 {
        FilledAnswersAll(Created(org, scenario, tags[0], 4), scenario, tags[1..], existing, done[tags[0] := |org|], calls - 4);
      }
    }
  }

  /** Wherever the creation loop is cut, a pair stays unique; completed, every tag has its carrier. */
  lemma {:induction false} FilledKeepsUnique(org: Organization, scenario: string, tags: seq<string>,
                                             existing: map<string, nat>, done: map<string, nat>, calls: nat)
    requires Unique(org) && Distinct(tags)
    requires forall tag :: tag in tags ==> Printable(scenario, tag)
    requires forall tag, i: nat :: tag in tags && Carries(org, i, scenario, tag) ==> tag in existing
    requires forall tag :: tag in existing ==> Carries(org, existing[tag], scenario, tag)
    requires forall tag :: tag in done ==> Carries(org, done[tag], scenario, tag)
    ensures var (after, outcome) := Filled(org, scenario, tags, existing, done, calls);
      && Unique(after)
      && (outcome.Completed? ==> forall tag :: tag in outcome.accounts ==> Carries(after, outcome.accounts[tag], scenario, tag))
    decreases |tags|
  {
    if tags != [] {
      var tag := tags[0];
      assert forall t :: t in tags[1..] ==> t in tags;
      if tag in existing {
        FilledKeepsUnique(org, scenario, tags[1..], existing, done[tag := existing[tag]], calls);
      } else {
        CreatedKeepsUnique(org, scenario, tag, if calls < 4 then calls else 4);
        if calls >= 4 {
          var next := Created(org, scenario, tag, 4);
          assert forall t :: t in tags[1..] ==> t != tag;
          FilledKeepsUnique(next, scenario, tags[1..], existing, done[tag := |org|], calls - 4);
        }
      }
    }
  }

  /** One provisioning run, cut short anywhere or completed. */
  lemma EnsureKeepsUnique(org: Organization, scenario: string, tags: seq<string>, calls: nat)
    requires Unique(org) && Distinct(tags)
    requires forall tag :: tag in tags ==> Printable(scenario, tag)
    ensures var (after, outcome) := EnsureAccounts(org, scenario, tags, calls);
      && Unique(after)
      && !outcome.Duplicated?
      && (outcome.Completed? ==> outcome.accounts.Keys == Elements(tags))
      && (outcome.Completed? ==> forall tag :: tag in tags ==> Carries(after, outcome.accounts[tag], scenario, tag))
  {
    ExistingIsTheCarriers(org, scenario, Elements(tags), |org|);
    var existing := Existing(org, scenario, Elements(tags), |org|);
    FilledAnswersAll(org, scenario, tags, existing.value, map[], calls);
    FilledKeepsUnique(org, scenario, tags, existing.value, map[], calls);
    assert {} + Elements(tags) == Elements(tags);
  }

  /** With every tag carried, the loop only reuses: nothing is created and no call is spent. */
  lemma {:induction false} FilledReuses(org: Organization, scenario: string, tags: seq<string>,
                                        existing: map<string, nat>, done: map<string, nat>, calls: nat)
    requires forall tag :: tag in tags ==> tag in existing
    ensures var (after, outcome) := Filled(org, scenario, tags, existing, done, calls);
      && after == org && outcome.Completed?
      && outcome.accounts.Keys == done.Keys + Elements(tags)
      && forall tag :: tag in outcome.accounts ==>
           outcome.accounts[tag] == if tag in tags then existing[tag] else done[tag]
  {
    if tags != [] {
      assert Elements(tags) == {tags[0]} + Elements(tags[1..]);
      FilledReuses(org, scenario, tags[1..], existing, done[tags[0] := existing[tags[0]]], calls);
    }
  }

  /** Running again after a completed run, however it is cut, returns the same ids and changes nothing. */
  lemma RerunReturnsTheSame(org: Organization, scenario: string, tags: seq<string>, calls: nat, again: nat)
    requires Unique(org) && Distinct(tags)
    requires forall tag :: tag in tags ==> Printable(scenario, tag)
    requires EnsureAccounts(org, scenario, tags, calls).1.Completed?
    ensures var first := EnsureAccounts(org, scenario, tags, calls);
      EnsureAccounts(first.0, scenario, tags, again) == first
  {
    var (after, outcome) := EnsureAccounts(org, scenario, tags, calls);
    EnsureKeepsUnique(org, scenario, tags, calls);
    ExistingIsTheCarriers(after, scenario, Elements(tags), |after|);
    var existing := Existing(after, scenario, Elements(tags), |after|);
    forall tag | tag in tags
      ensures tag in existing.value && existing.value[tag] == outcome.accounts[tag]
    {
      assert Carries(after, outcome.accounts[tag], scenario, tag);
    }
    FilledReuses(after, scenario, tags, existing.value, map[], again);
    assert EnsureAccounts(after, scenario, tags, again).1.accounts == outcome.accounts;
  }

  // ---- every history of the organization ---------------------------------------------------------

  /** A provisioning run (cut anywhere), or an account closed or taken out of the unit. */
  datatype Change =
    | Provision(scenario: string, tags: seq<string>, calls: nat)
    | Close(id: nat)
    | TakeOut(id: nat)

  /** Manifests validate a scenario's tags to be distinct and non-empty. */
  ghost predicate Proper(c: Change) {
    c.Provision? ==> Distinct(c.tags) && forall tag :: tag in c.tags ==> Printable(c.scenario, tag)
  }

  function Changed(org: Organization, c: Change): Organization {
    match c
    case Provision(scenario, tags, calls) => EnsureAccounts(org, scenario, tags, calls).0
    case Close(id) => if id < |org| then org[id := org[id].(active := false)] else org
    case TakeOut(id) => if id < |org| then org[id := org[id].(inUnit := false)] else org
  }

  function After(org: Organization, changes: seq<Change>): Organization {
    if changes == [] then org else Changed(After(org, changes[..|changes| - 1]), changes[|changes| - 1])
  }

  /** Over every history of interrupted and repeated provisioning, no pair is ever carried twice. */
  lemma {:induction false} AlwaysUnique(org: Organization, changes: seq<Change>)
    requires Unique(org) && forall i :: 0 <= i < |changes| ==> Proper(changes[i])
    ensures Unique(After(org, changes))
  {
    if changes != [] {
      AlwaysUnique(org, changes[..|changes| - 1]);
      var before, c := After(org, changes[..|changes| - 1]), changes[|changes| - 1];
      match c
      case Provision(scenario, tags, calls) => EnsureKeepsUnique(before, scenario, tags, calls);
      case Close(id) =>
        assert forall i: nat, s, t :: Carries(Changed(before, c), i, s, t) ==> Carries(before, i, s, t);
      case TakeOut(id) =>
        assert forall i: nat, s, t :: Carries(Changed(before, c), i, s, t) ==> Carries(before, i, s, t);
    }
  }

  /** A created account carries its own pair exactly if the pair is printable, and no other of its scenario. */
  lemma CreatedCarriersHere(org: Organization, scenario: string, tag: string, calls: nat, i: nat, t: string)
    ensures Carries(Created(org, scenario, tag, calls), i, scenario, t)
       <==> Carries(org, i, scenario, t) || (calls >= 3 && i == |org| && t == tag && Printable(scenario, tag))
  {
    ParseUndoesFormat(scenario, tag);
    FormatUndoesParse(FormatTagValue(scenario, tag));
    if ParseTagValue(FormatTagValue(scenario, tag)) == Some((scenario, t)) {
      assert FormatTagValue(scenario, t)[|scenario| + 1..] == t;
      assert FormatTagValue(scenario, tag)[|scenario| + 1..] == tag;
    }
  }

  /** A new account for a pair nobody carries keeps the scenario's own pairs unique, printable or not. */
  lemma CreatedKeepsHere(org: Organization, scenario: string, tag: string, calls: nat)
    requires UniqueIn(org, scenario) && forall i: nat :: !Carries(org, i, scenario, tag)
    ensures var after := Created(org, scenario, tag, calls);
      && UniqueIn(after, scenario)
      && (forall i: nat, t :: Carries(org, i, scenario, t) ==> Carries(after, i, scenario, t))
      && (forall i: nat, t :: t != tag && Carries(after, i, scenario, t) ==> Carries(org, i, scenario, t))
      && (calls >= 3 && Printable(scenario, tag) ==> Carries(after, |org|, scenario, tag))
  {
    forall i: nat, t
      ensures Carries(Created(org, scenario, tag, calls), i, scenario, t)
         <==> Carries(org, i, scenario, t) || (calls >= 3 && i == |org| && t == tag && Printable(scenario, tag))
    {
      CreatedCarriersHere(org, scenario, tag, calls, i, t);
    }
  }

  /** A completed loop leaves every printable tag with one carrier, and the scenario's pairs unique. */
  lemma {:induction false} FilledKeepsHere(org: Organization, scenario: string, tags: seq<string>,
                                           existing: map<string, nat>, done: map<string, nat>, calls: nat)
    requires UniqueIn(org, scenario) && Distinct(tags)
    requires forall tag, i: nat :: tag in tags && Carries(org, i, scenario, tag) ==> tag in existing
    requires forall tag :: tag in existing ==> Carries(org, existing[tag], scenario, tag)
    ensures var (after, outcome) := Filled(org, scenario, tags, existing, done, calls);
      && UniqueIn(after, scenario)
      && (forall i: nat, t :: Carries(org, i, scenario, t) ==> Carries(after, i, scenario, t))
      && (outcome.Completed? ==>
            forall tag :: tag in tags && Printable(scenario, tag) ==> exists i: nat :: Carries(after, i, scenario, tag))
    decreases |tags|
  {
    if tags != [] {
      var tag := tags[0];
      assert forall t :: t in tags <==> t == tag || t in tags[1..];
      if tag in existing {
        FilledKeepsHere(org, scenario, tags[1..], existing, done[tag := existing[tag]], calls);
      } else {
        CreatedKeepsHere(org, scenario, tag, if calls < 4 then calls else 4);
        if calls >= 4 {
          var next := Created(org, scenario, tag, 4);
          assert forall t :: t in tags[1..] ==> t != tag;
          FilledKeepsHere(next, scenario, tags[1..], existing, done[tag := |org|], calls - 4);
        }
      }
    }
  }

  /** How many of the tags the parser would not give back. */
  function Unprintables(scenario: string, tags: seq<string>): nat {
    if tags == [] then 0 else (if Printable(scenario, tags[0]) then 0 else 1) + Unprintables(scenario, tags[1..])
  }

  /** With enough calls the loop creates an account for every tag the scan did not find, and no other. */
  lemma {:induction false} FilledCreatesTheMissing(org: Organization, scenario: string, tags: seq<string>,
                                                   existing: map<string, nat>, done: map<string, nat>, calls: nat)
    requires calls >= 4 * |tags|
    requires forall tag :: tag in tags ==> (tag in existing <==> Printable(scenario, tag))
    ensures var (after, outcome) := Filled(org, scenario, tags, existing, done, calls);
      outcome.Completed? && |after| == |org| + Unprintables(scenario, tags)
    decreases |tags|
  {
    if tags != [] {
      assert forall t :: t in tags[1..] ==> t in tags;
      if tags[0] in existing {
        FilledCreatesTheMissing(org, scenario, tags[1..], existing, done[tags[0] := existing[tags[0]]], calls);
      } else {
        FilledCreatesTheMissing(Created(org, scenario, tags[0], 4), scenario, tags[1..], existing, done[tags[0] := |org|], calls - 4);
      }
    }
  }

  lemma CarriedIsPrintable(org: Organization, i: nat, scenario: string, tag: string)
    requires Carries(org, i, scenario, tag)
    ensures Printable(scenario, tag)
  {
    FormatUndoesParse(org[i].scenarioTag.value);
  }

  lemma {:induction false} NoUnprintables(scenario: string, tags: seq<string>)
    ensures Unprintables(scenario, tags) == 0 <==> forall tag :: tag in tags ==> Printable(scenario, tag)
  {
    if tags != [] {
      NoUnprintables(scenario, tags[1..]);
      assert forall t :: t in tags <==> t == tags[0] || t in tags[1..];
    }
  }

  /**
   Repeating a completed run, on any organization where the scenario's pairs are unique, creates
   one more account for every unprintable tag - whose first account the second run does not
   recognise - and so none at all if and only if every pair is printable.
   */
  lemma RerunDuplicatesUnprintable(org: Organization, scenario: string, tags: seq<string>, calls: nat, again: nat)
    requires UniqueIn(org, scenario) && Distinct(tags)
    requires EnsureAccounts(org, scenario, tags, calls).1.Completed? && again >= 4 * |tags|
    ensures var once := EnsureAccounts(org, scenario, tags, calls).0;
      var (twice, outcome) := EnsureAccounts(once, scenario, tags, again);
      && outcome.Completed? && |twice| == |once| + Unprintables(scenario, tags)
      && (|twice| == |once| <==> forall tag :: tag in tags ==> Printable(scenario, tag))
  {
    var once, wanted := EnsureAccounts(org, scenario, tags, calls).0, Elements(tags);
    ExistingIsTheCarriers(org, scenario, wanted, |org|);
    FilledKeepsHere(org, scenario, tags, Existing(org, scenario, wanted, |org|).value, map[], calls);
    ExistingIsTheCarriers(once, scenario, wanted, |once|);
    var existing := Existing(once, scenario, wanted, |once|);
    forall tag | tag in tags
      ensures tag in existing.value <==> Printable(scenario, tag)
    {
      if tag in existing.value {
        CarriedIsPrintable(once, existing.value[tag], scenario, tag);
      }
    }
    FilledCreatesTheMissing(once, scenario, tags, existing.value, map[], again);
    NoUnprintables(scenario, tags);
  }

  /** Two completed runs for `a/b` leave two accounts that both resolve as scenario `a`. */
  lemma SlashedScenarioIsDuplicated()
    ensures var once := EnsureAccounts([], "a/b", ["P"], 4).0;
      var twice := EnsureAccounts(once, "a/b", ["P"], 4).0;
      !Unique(twice)
  {
    var once := EnsureAccounts([], "a/b", ["P"], 4).0;
    assert Elements(["P"]) == {"P"};
    assert Existing([], "a/b", Elements(["P"]), 0) == Some(map[]);
    assert once == Created([], "a/b", "P", 4);
    var value := "a/b/P";
    assert FormatTagValue("a/b", "P") == value;
    assert FirstSlash(value) == 1 by {
      assert value[0] == 'a' && value[1] == '/';
    }
    assert value[..1] == "a" && value[2..] == "b/P";
    assert ParseTagValue(value) == Some(("a", "b/P"));
    assert Existing(once, "a/b", Elements(["P"]), 0) == Some(map[]);
    assert Existing(once, "a/b", Elements(["P"]), 1) == Some(map[]);
    var twice := EnsureAccounts(once, "a/b", ["P"], 4).0;
    assert twice == Created(once, "a/b", "P", 4);
    assert Carries(twice, 0, "a", "b/P") && Carries(twice, 1, "a", "b/P");
  }

  predicate SecondTagged(org: Organization, i: nat, scenario: string) {
    i < |org| && org[i].shaTag == Some(scenario)
  }

  /** A completed loop gives a tag's account the second tag unless it reuses one that lacks it. */
  lemma {:induction false} FilledSecondTags(org: Organization, scenario: string, tags: seq<string>,
                                            existing: map<string, nat>, done: map<string, nat>, calls: nat, tag: string)
    requires forall t :: t in existing ==> existing[t] < |org|
    requires tag in tags || tag in done
    requires Filled(org, scenario, tags, existing, done, calls).1.Completed?
    ensures var (after, outcome) := Filled(org, scenario, tags, existing, done, calls);
      && org <= after && tag in outcome.accounts
      && (tag !in tags ==> outcome.accounts[tag] == done[tag])
      && (tag in tags ==> (SecondTagged(after, outcome.accounts[tag], scenario)
                           <==> (tag in existing ==> SecondTagged(org, existing[tag], scenario))))
    decreases |tags|
  {
    if tags != [] {
      assert tag in tags <==> tag == tags[0] || tag in tags[1..];
      if tags[0] in existing {
        FilledSecondTags(org, scenario, tags[1..], existing, done[tags[0] := existing[tags[0]]], calls, tag);
      } else {
        FilledSecondTags(Created(org, scenario, tags[0], 4), scenario, tags[1..], existing, done[tags[0] := |org|], calls - 4, tag);
      }
    }
  }

  /**
   After a completed run every returned account carries the second tag if and only if every
   account that carried one of the tags before the run already did: a reused account is never
   repaired.
   */
  lemma SecondTagsAreComplete(org: Organization, scenario: string, tags: seq<string>, calls: nat)
    requires EnsureAccounts(org, scenario, tags, calls).1.Completed?
    ensures var (after, outcome) := EnsureAccounts(org, scenario, tags, calls);
      && (forall tag :: tag in tags ==> tag in outcome.accounts)
      && ((forall tag :: tag in tags ==> SecondTagged(after, outcome.accounts[tag], scenario))
          <==> forall i: nat, tag :: tag in tags && Carries(org, i, scenario, tag) ==> SecondTagged(org, i, scenario))
  {
    var existing := Existing(org, scenario, Elements(tags), |org|);
    ExistingIsTheCarriers(org, scenario, Elements(tags), |org|);
    var (after, outcome) := EnsureAccounts(org, scenario, tags, calls);
    forall tag | tag in tags
      ensures tag in outcome.accounts
      ensures SecondTagged(after, outcome.accounts[tag], scenario)
         <==> forall i: nat :: Carries(org, i, scenario, tag) ==> SecondTagged(org, i, scenario)
    {
      FilledSecondTags(org, scenario, tags, existing.value, map[], calls, tag);
    }
  }

  /** A run cut between the two tag calls is never repaired: the second tag stays missing. */
  lemma SecondTagStaysMissing(again: nat)
    ensures var cut := EnsureAccounts([], "s", ["P"], 3);
      && cut.1.CutShort?
      && EnsureAccounts(cut.0, "s", ["P"], again) == (cut.0, Completed(map["P" := 0]))
      && cut.0[0].shaTag.None?
  {
    assert Elements(["P"]) == {"P"};
    assert Existing([], "s", Elements(["P"]), 0) == Some(map[]);
    var cut := EnsureAccounts([], "s", ["P"], 3).0;
    assert cut == Created([], "s", "P", 3);
    ParseUndoesFormat("s", "P");
    assert Existing(cut, "s", Elements(["P"]), 0) == Some(map[]);
    assert Existing(cut, "s", Elements(["P"]), 1) == Some(map["P" := 0]);
    FilledReuses(cut, "s", ["P"], map["P" := 0], map[], again);
    assert Filled(cut, "s", ["P"], map["P" := 0], map[], again).1.accounts == map["P" := 0];
  }

  // ---- the manager's two operations ----------------------------------------------------------

  datatype ResolutionError = DuplicateAccounts | MissingAccounts

  /** The accounts resolution keeps: listed, tagged, and ACTIVE unless every status is asked for. */
  predicate Kept(org: Organization, activeOnly: bool, i: nat, scenario: string, tag: string) {
    Tagged(org, i, scenario, tag) && (activeOnly ==> org[i].active)
  }

  ghost predicate KeptOnce(org: Organization, activeOnly: bool) {
    forall i: nat, j: nat, scenario, tag ::
      Kept(org, activeOnly, i, scenario, tag) && Kept(org, activeOnly, j, scenario, tag) ==> i == j
  }

  type Environment = map<string, map<string, nat>>

  predicate InEnvironment(env: Environment, scenario: string, tag: string, id: nat) {
    scenario in env && tag in env[scenario] && env[scenario][tag] == id
  }

  /** `env` indexes exactly the kept accounts among the first `n`. */
  ghost predicate Indexes(org: Organization, activeOnly: bool, n: nat, env: Environment) {
    && (forall i: nat, scenario, tag :: i < n && Kept(org, activeOnly, i, scenario, tag) ==> InEnvironment(env, scenario, tag, i))
    && (forall scenario, tag :: scenario in env && tag in env[scenario] ==>
          env[scenario][tag] < n && Kept(org, activeOnly, env[scenario][tag], scenario, tag))
    && (forall scenario :: scenario in env ==> env[scenario] != map[])
  }

  /** Some required scenario has no account at all, or lacks one of its required tags. */
  ghost predicate Unmet(org: Organization, activeOnly: bool, required: map<string, set<string>>, scenario: string) {
    scenario in required &&
    ((forall i: nat, tag :: !Kept(org, activeOnly, i, scenario, tag))
     || exists tag :: tag in required[scenario] && forall i: nat :: !Kept(org, activeOnly, i, scenario, tag))
  }

  /** `env` gives each required scenario exactly its required tags, each its kept account. */
  ghost predicate Answers(org: Organization, activeOnly: bool, required: map<string, set<string>>, env: Environment) {
    && env.Keys == required.Keys
    && (forall scenario :: scenario in required ==> env[scenario].Keys == required[scenario])
    && (forall scenario, tag :: scenario in env && tag in env[scenario] ==> Kept(org, activeOnly, env[scenario][tag], scenario, tag))
  }

  /** The requirement is met, and `tagMap` gives its tags, each its kept account. */
  ghost predicate Serves(org: Organization, activeOnly: bool, required: map<string, set<string>>, scenario: string,
                         tagMap: map<string, nat>) {
    && scenario in required && tagMap.Keys == required[scenario]
    && (forall tag :: tag in tagMap ==> Kept(org, activeOnly, tagMap[tag], scenario, tag))
    && !Unmet(org, activeOnly, required, scenario)
  }

  function Narrowed(tagMap: map<string, nat>, tags: set<string>): map<string, nat>
    requires tags <= tagMap.Keys
  {
    map tag | tag in tags :: tagMap[tag]
  }

  class AccountManager {
    var org: Organization

    constructor (org: Organization)
      ensures this.org == org
    {
      this.org := org;
    }

    /** One account a tag: reuse the carried ones, create the rest; `calls` cuts the run short. */
    method EnsureScenarioAccounts(scenario: string, tags: seq<string>, calls: nat) returns (outcome: Ensured)
      modifies this
      ensures (org, outcome) == EnsureAccounts(old(org), scenario, tags, calls)
    {
      var wanted := Elements(tags);
      var existing: map<string, nat> := map[];
      for n := 0 to |org|
        invariant org == old(org)
        invariant Existing(org, scenario, wanted, n) == Some(existing)
      {
        ghost var sofar := Existing(org, scenario, wanted, n);
        if org[n].inUnit && org[n].active && org[n].scenarioTag.Some? {
          var parsed := ParseTagValue(org[n].scenarioTag.value);
          if parsed.Some? && parsed.value.0 == scenario && parsed.value.1 in wanted {
            if parsed.value.1 in existing {
              ExistingStaysNone(org, scenario, wanted, n + 1, |org|);
              return Duplicated;
            }
            existing := existing[parsed.value.1 := n];
          }
        }
      }
      var accounts: map<string, nat> := map[];
      var left := calls;
      for k := 0 to |tags|
        invariant Filled(org, scenario, tags[k..], existing, accounts, left)
               == Filled(old(org), scenario, tags, existing, map[], calls)
      {
        var tag := tags[k];
        assert tags[k..][1..] == tags[k + 1..];
        if tag in existing {
          accounts := accounts[tag := existing[tag]];
        } else {
          var id := |org|;
          org := Created(org, scenario, tag, if left < 4 then left else 4);
          if left < 4 {
            return CutShort;
          }
          left := left - 4;
          accounts := accounts[tag := id];
        }
      }
      assert tags[|tags|..] == [];
      return Completed(accounts);
    }

    /** Index every kept account of the unit; None if one pair is kept twice. */
    method IndexAccounts(activeOnly: bool) returns (index: Option<Environment>)
      ensures index.Some? <==> KeptOnce(org, activeOnly)
      ensures index.Some? ==> Indexes(org, activeOnly, |org|, index.value)
    {
      var byScenario: Environment := map[];
      for n := 0 to |org|
        invariant Indexes(org, activeOnly, n, byScenario)
      {
        if org[n].inUnit && org[n].scenarioTag.Some? && (activeOnly ==> org[n].active) {
          var parsed := ParseTagValue(org[n].scenarioTag.value);
          if parsed.Some? {
            var (scenario, tag) := parsed.value;
            assert Kept(org, activeOnly, n, scenario, tag);
            var tagMap := if scenario in byScenario then byScenario[scenario] else map[];
            if tag in tagMap {
              assert Kept(org, activeOnly, tagMap[tag], scenario, tag);
              return None;
            }
            IndexGrows(org, activeOnly, n, byScenario, tagMap, scenario, tag);
            byScenario := byScenario[scenario := tagMap[tag := n]];
          }
        }
      }
      IndexedIsKeptOnce(org, activeOnly, byScenario);
      return Some(byScenario);
    }

    /** Pick each required scenario's required tags; None on the first unmet requirement. */
    method Select(index: Environment, required: map<string, set<string>>, activeOnly: bool)
      returns (selected: Option<Environment>)
      requires Indexes(org, activeOnly, |org|, index)
      ensures selected.None? <==> exists s :: Unmet(org, activeOnly, required, s)
      ensures selected.Some? ==> Answers(org, activeOnly, required, selected.value)
    {
      var picked: Environment := map[];
      var todo := required.Keys;
      while todo != {}
        invariant todo <= required.Keys && picked.Keys == required.Keys - todo
        invariant forall s :: s in picked ==> Serves(org, activeOnly, required, s, picked[s])
      {
        var scenario :| scenario in todo;
        todo := todo - {scenario};
        if scenario !in index || !(required[scenario] <= index[scenario].Keys) {
          LackingIsUnmet(org, activeOnly, index, required, scenario);
          return None;
        }
        HavingIsServed(org, activeOnly, index, required, scenario);
        picked := picked[scenario := Narrowed(index[scenario], required[scenario])];
      }
      AllServed(org, activeOnly, required, picked);
      return Some(picked);
    }

    /**
     Resolution fails on a pair kept twice anywhere in the unit, else on an unmet requirement,
     and for no other reason; otherwise it returns exactly the kept accounts asked for.
     */
    method ResolveTestEnvironment(required: Option<map<string, set<string>>>, activeOnly: bool)
      returns (r: Result<Environment, ResolutionError>)
      ensures r == Failure(DuplicateAccounts) <==> !KeptOnce(org, activeOnly)
      ensures r == Failure(MissingAccounts) <==>
        KeptOnce(org, activeOnly) && required.Some? && exists s :: Unmet(org, activeOnly, required.value, s)
      ensures r.Success? && required.None? ==> Indexes(org, activeOnly, |org|, r.value)
      ensures r.Success? && required.Some? ==> Answers(org, activeOnly, required.value, r.value)
    {
      var index := IndexAccounts(activeOnly);
      if index.None? {
        return Failure(DuplicateAccounts);
      }
      if required.None? {
        return Success(index.value);
      }
      var selected := Select(index.value, required.value, activeOnly);
      return if selected.None? then Failure(MissingAccounts) else Success(selected.value);
    }
  }

  lemma {:induction false} ExistingStaysNone(org: Organization, scenario: string, wanted: set<string>, n: nat, m: nat)
    requires n <= m <= |org| && Existing(org, scenario, wanted, n).None?
    ensures Existing(org, scenario, wanted, m).None?
  {
    if n < m {
      ExistingStaysNone(org, scenario, wanted, n, m - 1);
    }
  }

  lemma IndexGrows(org: Organization, activeOnly: bool, n: nat, env: Environment, tagMap: map<string, nat>,
                   scenario: string, tag: string)
    requires Indexes(org, activeOnly, n, env) && Kept(org, activeOnly, n, scenario, tag) && tag !in tagMap
    requires tagMap == if scenario in env then env[scenario] else map[]
    ensures Indexes(org, activeOnly, n + 1, env[scenario := tagMap[tag := n]])
  {
    var grown := env[scenario := tagMap[tag := n]];
    forall i: nat, s, t | i < n + 1 && Kept(org, activeOnly, i, s, t)
      ensures InEnvironment(grown, s, t, i)
    {
      if i == n {
        SameTag(org, activeOnly, n, scenario, tag, s, t);
      } else {
        assert InEnvironment(env, s, t, i);
      }
    }
    forall s, t | s in grown && t in grown[s]
      ensures grown[s][t] < n + 1 && Kept(org, activeOnly, grown[s][t], s, t)
    {
      assert (s == scenario && t == tag) || (s in env && t in env[s]);
    }
  }

  lemma SameTag(org: Organization, activeOnly: bool, i: nat, s1: string, t1: string, s2: string, t2: string)
    requires Kept(org, activeOnly, i, s1, t1) && Kept(org, activeOnly, i, s2, t2)
    ensures s1 == s2 && t1 == t2
  {
  }

  lemma IndexedIsKeptOnce(org: Organization, activeOnly: bool, env: Environment)
    requires Indexes(org, activeOnly, |org|, env)
    ensures KeptOnce(org, activeOnly)
  {
    forall i: nat, j: nat, scenario, tag | Kept(org, activeOnly, i, scenario, tag) && Kept(org, activeOnly, j, scenario, tag)
      ensures i == j
    {
      assert InEnvironment(env, scenario, tag, i) && InEnvironment(env, scenario, tag, j);
    }
  }

  lemma LackingIsUnmet(org: Organization, activeOnly: bool, env: Environment,
                       required: map<string, set<string>>, scenario: string)
    requires Indexes(org, activeOnly, |org|, env) && scenario in required
    requires scenario !in env || !(required[scenario] <= env[scenario].Keys)
    ensures Unmet(org, activeOnly, required, scenario)
  {
    if scenario !in env {
      forall i: nat, tag
        ensures !Kept(org, activeOnly, i, scenario, tag)
      {
        assert !InEnvironment(env, scenario, tag, i);
      }
    } else {
      var tag :| tag in required[scenario] && tag !in env[scenario];
      forall i: nat
        ensures !Kept(org, activeOnly, i, scenario, tag)
      {
        assert !InEnvironment(env, scenario, tag, i);
      }
    }
  }

  lemma HavingIsMet(org: Organization, activeOnly: bool, env: Environment,
                    required: map<string, set<string>>, scenario: string)
    requires Indexes(org, activeOnly, |org|, env) && scenario in required
    requires scenario in env && required[scenario] <= env[scenario].Keys
    ensures !Unmet(org, activeOnly, required, scenario)
  {
    var tag :| tag in env[scenario];
    assert Kept(org, activeOnly, env[scenario][tag], scenario, tag);
    forall t | t in required[scenario]
      ensures Kept(org, activeOnly, env[scenario][t], scenario, t)
    {
    }
  }

  lemma AllServed(org: Organization, activeOnly: bool, required: map<string, set<string>>, picked: Environment)
    requires picked.Keys == required.Keys
    requires forall s :: s in picked ==> Serves(org, activeOnly, required, s, picked[s])
    ensures Answers(org, activeOnly, required, picked)
    ensures forall s :: !Unmet(org, activeOnly, required, s)
  {
    forall s
      ensures !Unmet(org, activeOnly, required, s)
    {
      assert s in required ==> s in picked;
    }
  }

  lemma HavingIsServed(org: Organization, activeOnly: bool, env: Environment, required: map<string, set<string>>,
                       scenario: string)
    requires Indexes(org, activeOnly, |org|, env) && scenario in required
    requires scenario in env && required[scenario] <= env[scenario].Keys
    ensures Serves(org, activeOnly, required, scenario, Narrowed(env[scenario], required[scenario]))
  {
    HavingIsMet(org, activeOnly, env, required, scenario);
  }

  /** Distinct (scenario, tag) keys resolve to distinct accounts: an account has one tag value. */
  lemma DistinctKeysDistinctAccounts(org: Organization, activeOnly: bool, required: map<string, set<string>>,
                                     env: Environment, s1: string, t1: string, s2: string, t2: string)
    requires Answers(org, activeOnly, required, env)
    requires s1 in env && t1 in env[s1] && s2 in env && t2 in env[s2]
    requires env[s1][t1] == env[s2][t2]
    ensures s1 == s2 && t1 == t2
  {
    assert Kept(org, activeOnly, env[s1][t1], s1, t1) && Kept(org, activeOnly, env[s2][t2], s2, t2);
  }

  // ---- provisioning and resolving many scenarios -----------------------------------------------

  /** One scenario's provisioning run, cut short after `calls` effective calls. */
  datatype Request = Request(scenario: string, tags: seq<string>, calls: nat)

  function EnsureAll(org: Organization, requests: seq<Request>): (Organization, seq<Ensured>)
    ensures |EnsureAll(org, requests).1| == |requests|
  {
    if requests == [] then (org, []) else
      var (before, outcomes) := EnsureAll(org, requests[..|requests| - 1]);
      var last := requests[|requests| - 1];
      var (after, outcome) := EnsureAccounts(before, last.scenario, last.tags, last.calls);
      (after, outcomes + [outcome])
  }

  /** The requirement the scenarios' manifests add up to. */
  function Required(requests: seq<Request>): map<string, set<string>> {
    if requests == [] then map[] else
      Required(requests[..|requests| - 1])[requests[|requests| - 1].scenario := Elements(requests[|requests| - 1].tags)]
  }

  /** A manifest has at least one tag, its tags are distinct, and its pairs are printable. */
  ghost predicate ProperRequests(requests: seq<Request>) {
    && (forall k :: 0 <= k < |requests| ==> requests[k].tags != [] && Distinct(requests[k].tags))
    && (forall k, tag :: 0 <= k < |requests| && tag in requests[k].tags ==> Printable(requests[k].scenario, tag))
    && (forall j, k :: 0 <= j < k < |requests| ==> requests[j].scenario != requests[k].scenario)
  }

  /** The run completed, and each of its tags is still carried by the account it returned. */
  ghost predicate Fulfilled(org: Organization, r: Request, e: Ensured) {
    && e.Completed? && e.accounts.Keys == Elements(r.tags)
    && forall tag :: tag in r.tags ==> Carries(org, e.accounts[tag], r.scenario, tag)
  }

  lemma {:induction false} FilledOnlyAppends(org: Organization, scenario: string, tags: seq<string>,
                                             existing: map<string, nat>, done: map<string, nat>, calls: nat)
    ensures org <= Filled(org, scenario, tags, existing, done, calls).0
    decreases |tags|
  {
    if tags != [] {
      if tags[0] in existing {
        FilledOnlyAppends(org, scenario, tags[1..], existing, done[tags[0] := existing[tags[0]]], calls);
      } else if calls >= 4 {
        FilledOnlyAppends(Created(org, scenario, tags[0], 4), scenario, tags[1..], existing, done[tags[0] := |org|], calls - 4);
      }
    }
  }

  lemma FulfilledStays(org: Organization, after: Organization, r: Request, e: Ensured)
    requires org <= after && Fulfilled(org, r, e)
    ensures Fulfilled(after, r, e)
  {
    forall tag | tag in r.tags
      ensures Carries(after, e.accounts[tag], r.scenario, tag)
    {
      assert after[e.accounts[tag]] == org[e.accounts[tag]];
    }
  }

  ghost predicate AllFulfilled(org: Organization, requests: seq<Request>, outcomes: seq<Ensured>) {
    |requests| == |outcomes| && forall k :: 0 <= k < |requests| ==> Fulfilled(org, requests[k], outcomes[k])
  }

  lemma {:induction false} EnsureAllFulfils(org: Organization, requests: seq<Request>)
    requires Unique(org) && ProperRequests(requests)
    requires forall k :: 0 <= k < |requests| ==> EnsureAll(org, requests).1[k].Completed?
    ensures var (after, outcomes) := EnsureAll(org, requests);
      Unique(after) && AllFulfilled(after, requests, outcomes)
  {
    if requests != [] {
      var front, last := requests[..|requests| - 1], requests[|requests| - 1];
      var (before, outcomes) := EnsureAll(org, front);
      var (after, outcome) := EnsureAccounts(before, last.scenario, last.tags, last.calls);
      assert EnsureAll(org, requests) == (after, outcomes + [outcome]);
      assert forall k :: 0 <= k < |front| ==> outcomes[k] == EnsureAll(org, requests).1[k];
      assert outcome == EnsureAll(org, requests).1[|front|];
      EnsureAllFulfils(org, front);
      EnsureKeepsUnique(before, last.scenario, last.tags, last.calls);
      FilledOnlyAppends(before, last.scenario, last.tags,
                        Existing(before, last.scenario, Elements(last.tags), |before|).value, map[], last.calls);
      forall k | 0 <= k < |requests|
        ensures Fulfilled(after, requests[k], (outcomes + [outcome])[k])
      {
        if k < |front| {
          FulfilledStays(before, after, front[k], outcomes[k]);
        }
      }
    }
  }

  lemma {:induction false} RequiredAt(requests: seq<Request>, k: nat)
    requires k < |requests| && ProperRequests(requests)
    ensures requests[k].scenario in Required(requests) && Required(requests)[requests[k].scenario] == Elements(requests[k].tags)
  {
    if k < |requests| - 1 {
      RequiredAt(requests[..|requests| - 1], k);
    }
  }

  lemma {:induction false} RequiredOnly(requests: seq<Request>, scenario: string) returns (k: nat)
    requires scenario in Required(requests)
    ensures k < |requests| && requests[k].scenario == scenario
  {
    if requests[|requests| - 1].scenario == scenario {
      k := |requests| - 1;
    } else {
      k := RequiredOnly(requests[..|requests| - 1], scenario);
    }
  }

  lemma CarriedIsKept(org: Organization)
    ensures forall i: nat, s, t :: Kept(org, true, i, s, t) <==> Carries(org, i, s, t)
  {
  }

  lemma FulfilledIsMet(org: Organization, required: map<string, set<string>>, r: Request, e: Ensured)
    requires Fulfilled(org, r, e) && r.tags != [] && r.scenario in required && required[r.scenario] == Elements(r.tags)
    ensures !Unmet(org, true, required, r.scenario)
  {
    CarriedIsKept(org);
    assert r.tags[0] in r.tags && Kept(org, true, e.accounts[r.tags[0]], r.scenario, r.tags[0]);
    forall tag | tag in required[r.scenario]
      ensures Kept(org, true, e.accounts[tag], r.scenario, tag)
    {
      assert Carries(org, e.accounts[tag], r.scenario, tag);
    }
  }

  lemma AnswerIsTheOutcome(org: Organization, required: map<string, set<string>>, env: Environment, r: Request, e: Ensured)
    requires Unique(org) && Fulfilled(org, r, e) && r.scenario in required && required[r.scenario] == Elements(r.tags)
    requires Answers(org, true, required, env)
    ensures env[r.scenario] == e.accounts
  {
    CarriedIsKept(org);
    forall tag | tag in Elements(r.tags)
      ensures env[r.scenario][tag] == e.accounts[tag]
    {
      assert Kept(org, true, env[r.scenario][tag], r.scenario, tag) && Carries(org, e.accounts[tag], r.scenario, tag);
    }
    assert env[r.scenario].Keys == e.accounts.Keys;
  }

  /**
   After completed runs for any number of scenarios, resolving all of them succeeds, and with the
   ids those runs returned.
   */
  lemma ResolvesWhatWasEnsured(org: Organization, requests: seq<Request>, env: Environment)
    requires Unique(org) && ProperRequests(requests)
    requires forall k :: 0 <= k < |requests| ==> EnsureAll(org, requests).1[k].Completed?
    ensures var (after, outcomes) := EnsureAll(org, requests);
      && KeptOnce(after, true)
      && (forall scenario :: !Unmet(after, true, Required(requests), scenario))
      && (Answers(after, true, Required(requests), env) ==>
            forall k :: 0 <= k < |requests| ==>
              requests[k].scenario in env && env[requests[k].scenario] == outcomes[k].accounts)
  {
    EnsureAllFulfils(org, requests);
    var (after, outcomes) := EnsureAll(org, requests);
    CarriedIsKept(after);
    forall scenario
      ensures !Unmet(after, true, Required(requests), scenario)
    {
      if scenario in Required(requests) {
        var k := RequiredOnly(requests, scenario);
        RequiredAt(requests, k);
        FulfilledIsMet(after, Required(requests), requests[k], outcomes[k]);
      }
    }
    if Answers(after, true, Required(requests), env) {
      forall k | 0 <= k < |requests|
        ensures requests[k].scenario in env && env[requests[k].scenario] == outcomes[k].accounts
      {
        RequiredAt(requests, k);
        AnswerIsTheOutcome(after, Required(requests), env, requests[k], outcomes[k]);
      }
    }
  }
}
