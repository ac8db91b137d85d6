/**
 Quota accounting: what is verified through the (tag, region) grouping is what a direct count
 counts; the approval wait polls until everything is met or the deadline passes; one increase is
 requested with bounded retries.
 */
module Quotas {
  import opened Wrappers

  datatype Quota = Quota(tag: string, region: string, code: string, desired: real)

  datatype Scenario = Scenario(name: string, quotas: seq<Quota>)

  /** scenario name -> account tag -> account id */
  type Mappings = map<string, map<string, string>>

  /** One quota to verify in one account. */
  datatype Item = Item(scenario: string, account: string, quota: Quota)

  function MappingFor(mappings: Mappings, name: string): map<string, string> {
    if name in mappings then mappings[name] else map[]
  }

  // ---- the direct count ------------------------------------------------------------------------

  function DirectOne(name: string, quotas: seq<Quota>, mapping: map<string, string>): seq<Item> {
    if quotas == [] then [] else
      var last := quotas[|quotas| - 1];
      DirectOne(name, quotas[..|quotas| - 1], mapping)
      + (if last.tag in mapping then [Item(name, mapping[last.tag], last)] else [])
  }

  /** Every declared quota whose account tag is mapped. */
  function Direct(scenarios: seq<Scenario>, mappings: Mappings): seq<Item> {
    if scenarios == [] then [] else
      var last := scenarios[|scenarios| - 1];
      Direct(scenarios[..|scenarios| - 1], mappings) + DirectOne(last.name, last.quotas, MappingFor(mappings, last.name))
  }

  method CountQuotasToVerify(scenarios: seq<Scenario>, mappings: Mappings) returns (total: nat)
    ensures total == |Direct(scenarios, mappings)|
  {
    total := 0;
    for i := 0 to |scenarios|
      invariant total == |Direct(scenarios[..i], mappings)|
    {
      var sc := scenarios[i];
      var mapping := MappingFor(mappings, sc.name);
      for j := 0 to |sc.quotas|
        invariant total == |Direct(scenarios[..i], mappings)| + |DirectOne(sc.name, sc.quotas[..j], mapping)|
      {
        assert sc.quotas[..j + 1][..j] == sc.quotas[..j];
        if sc.quotas[j].tag in mapping {
          total := total + 1;
        }
      }
      assert sc.quotas[..|sc.quotas|] == sc.quotas;
      assert scenarios[..i + 1][..i] == scenarios[..i];
    }
    assert scenarios[..|scenarios|] == scenarios;
  }

  // ---- the grouping ------------------------------------------------------------------------------

  /** The quotas of one (tag, region), in declaration order. */
  datatype Group = Group(tag: string, region: string, increases: seq<Quota>)

  /** Groups are keyed by first appearance. */
  function Added(groups: seq<Group>, q: Quota): seq<Group> {
    if groups == [] then [Group(q.tag, q.region, [q])]
    else if groups[0].tag == q.tag && groups[0].region == q.region then
      [groups[0].(increases := groups[0].increases + [q])] + groups[1..]
    else [groups[0]] + Added(groups[1..], q)
  }

  function Grouped(quotas: seq<Quota>): seq<Group> {
    if quotas == [] then [] else Added(Grouped(quotas[..|quotas| - 1]), quotas[|quotas| - 1])
  }

  /** Each group holds only its own quotas, and no two groups share a key. */
  predicate WellGrouped(groups: seq<Group>) {
    && (forall i, j :: 0 <= i < |groups| && 0 <= j < |groups[i].increases| ==>
          groups[i].increases[j].tag == groups[i].tag && groups[i].increases[j].region == groups[i].region)
    && (forall i, j :: 0 <= i < j < |groups| ==> (groups[i].tag, groups[i].region) != (groups[j].tag, groups[j].region))
  }

  /** Quotas verified in one account and region with one client. */
  datatype Unit = Unit(scenario: string, account: string, region: string, increases: seq<Quota>)

  function UnitsOne(name: string, groups: seq<Group>, mapping: map<string, string>): seq<Unit> {
    if groups == [] then [] else
      (if groups[0].tag in mapping then [Unit(name, mapping[groups[0].tag], groups[0].region, groups[0].increases)] else [])
      + UnitsOne(name, groups[1..], mapping)
  }

  function Units(scenarios: seq<Scenario>, mappings: Mappings): seq<Unit> {
    if scenarios == [] then [] else
      var last := scenarios[|scenarios| - 1];
      Units(scenarios[..|scenarios| - 1], mappings)
      + UnitsOne(last.name, Grouped(last.quotas), MappingFor(mappings, last.name))
  }

  lemma {:induction false} UnitsOneOfSum(name: string, xs: seq<Group>, ys: seq<Group>, mapping: map<string, string>)
    ensures UnitsOne(name, xs + ys, mapping) == UnitsOne(name, xs, mapping) + UnitsOne(name, ys, mapping)
  {
    if xs == [] {
      assert xs + ys == ys;
    } else {
      assert (xs + ys)[1..] == xs[1..] + ys;
      UnitsOneOfSum(name, xs[1..], ys, mapping);
    }
  }

  method GroupQuotas(quotas: seq<Quota>) returns (groups: seq<Group>)
    ensures groups == Grouped(quotas)
  {
    groups := [];
    for j := 0 to |quotas|
      invariant groups == Grouped(quotas[..j])
    {
      assert quotas[..j + 1][..j] == quotas[..j];
      groups := Added(groups, quotas[j]);
    }
    assert quotas[..|quotas|] == quotas;
  }

  /** Keep the groups whose tag is mapped. */
  method SelectGroups(name: string, groups: seq<Group>, mapping: map<string, string>) returns (units: seq<Unit>)
    ensures units == UnitsOne(name, groups, mapping)
  {
    units := [];
    for k := 0 to |groups|
      invariant units == UnitsOne(name, groups[..k], mapping)
    {
      UnitsOneOfSum(name, groups[..k], [groups[k]], mapping);
      assert groups[..k + 1] == groups[..k] + [groups[k]];
      assert [groups[k]][1..] == [];
      if groups[k].tag in mapping {
        units := units + [Unit(name, mapping[groups[k].tag], groups[k].region, groups[k].increases)];
      }
    }
    assert groups[..|groups|] == groups;
  }

  method BuildWorkUnits(scenarios: seq<Scenario>, mappings: Mappings) returns (units: seq<Unit>)
    ensures units == Units(scenarios, mappings)
  {
    units := [];
    for i := 0 to |scenarios|
      invariant units == Units(scenarios[..i], mappings)
    {
      var sc := scenarios[i];
      assert scenarios[..i + 1][..i] == scenarios[..i];
      var groups := GroupQuotas(sc.quotas);
      var selected := SelectGroups(sc.name, groups, MappingFor(mappings, sc.name));
      units := units + selected;
    }
    assert scenarios[..|scenarios|] == scenarios;
  }

  function ItemsOf(u: Unit): seq<Item> {
    seq(|u.increases|, i requires 0 <= i < |u.increases| => Item(u.scenario, u.account, u.increases[i]))
  }

  function AllItems(units: seq<Unit>): seq<Item> {
    if units == [] then [] else ItemsOf(units[0]) + AllItems(units[1..])
  }

  lemma {:induction false} AllItemsOfSum(xs: seq<Unit>, ys: seq<Unit>)
    ensures AllItems(xs + ys) == AllItems(xs) + AllItems(ys)
  {
    if xs == [] {
      assert xs + ys == ys;
    } else {
      assert (xs + ys)[1..] == xs[1..] + ys;
      AllItemsOfSum(xs[1..], ys);
    }
  }

  function Share(name: string, q: Quota, mapping: map<string, string>): multiset<Item> {
    if q.tag in mapping then multiset{Item(name, mapping[q.tag], q)} else multiset{}
  }

  lemma GrownGroupAddsOne(name: string, g: Group, rest: seq<Group>, q: Quota, mapping: map<string, string>)
    requires g.tag == q.tag && g.region == q.region
    ensures multiset(AllItems(UnitsOne(name, [g.(increases := g.increases + [q])] + rest, mapping)))
         == multiset(AllItems(UnitsOne(name, [g] + rest, mapping))) + Share(name, q, mapping)
  {
    var h := g.(increases := g.increases + [q]);
    UnitsOneOfSum(name, [g], rest, mapping);
    UnitsOneOfSum(name, [h], rest, mapping);
    assert [g][1..] == [] && [h][1..] == [];
    if q.tag in mapping {
      var u := Unit(name, mapping[q.tag], q.region, g.increases);
      var v := u.(increases := h.increases);
      assert UnitsOne(name, [g], mapping) == [u] && UnitsOne(name, [h], mapping) == [v];
      assert ItemsOf(v) == ItemsOf(u) + [Item(name, mapping[q.tag], q)];
      AllItemsOfSum([u], UnitsOne(name, rest, mapping));
      AllItemsOfSum([v], UnitsOne(name, rest, mapping));
      assert AllItems([u]) == ItemsOf(u) && AllItems([v]) == ItemsOf(v);
    }
  }

  lemma LaterGroupAddsOne(name: string, g: Group, before: seq<Group>, after: seq<Group>, share: multiset<Item>,
                          mapping: map<string, string>)
    requires multiset(AllItems(UnitsOne(name, after, mapping))) == multiset(AllItems(UnitsOne(name, before, mapping))) + share
    ensures multiset(AllItems(UnitsOne(name, [g] + after, mapping)))
         == multiset(AllItems(UnitsOne(name, [g] + before, mapping))) + share
  {
    UnitsOneOfSum(name, [g], before, mapping);
    UnitsOneOfSum(name, [g], after, mapping);
    AllItemsOfSum(UnitsOne(name, [g], mapping), UnitsOne(name, before, mapping));
    AllItemsOfSum(UnitsOne(name, [g], mapping), UnitsOne(name, after, mapping));
  }

  /** Adding a quota to its group adds exactly its item. */
  lemma {:induction false} AddedAddsOne(name: string, groups: seq<Group>, q: Quota, mapping: map<string, string>)
    ensures multiset(AllItems(UnitsOne(name, Added(groups, q), mapping)))
         == multiset(AllItems(UnitsOne(name, groups, mapping))) + Share(name, q, mapping)
    decreases |groups|
  {
    var after := Added(groups, q);
    if groups == [] {
      assert after[1..] == [];
      if q.tag in mapping {
        var u := Unit(name, mapping[q.tag], q.region, [q]);
        assert UnitsOne(name, after, mapping) == [u] && [u][1..] == [];
        assert ItemsOf(u) == [Item(name, mapping[q.tag], q)];
      }
    } else if groups[0].tag == q.tag && groups[0].region == q.region {
      assert groups == [groups[0]] + groups[1..];
      GrownGroupAddsOne(name, groups[0], groups[1..], q, mapping);
    } else {
      AddedAddsOne(name, groups[1..], q, mapping);
      LaterGroupAddsOne(name, groups[0], groups[1..], Added(groups[1..], q), Share(name, q, mapping), mapping);
      assert groups == [groups[0]] + groups[1..];
    }
  }

  lemma {:induction false} GroupingConservesOne(name: string, quotas: seq<Quota>, mapping: map<string, string>)
    ensures multiset(AllItems(UnitsOne(name, Grouped(quotas), mapping))) == multiset(DirectOne(name, quotas, mapping))
  {
    if quotas != [] {
      GroupingConservesOne(name, quotas[..|quotas| - 1], mapping);
      AddedAddsOne(name, Grouped(quotas[..|quotas| - 1]), quotas[|quotas| - 1], mapping);
    }
  }

  lemma {:induction false} AddedKeepsGroups(groups: seq<Group>, q: Quota)
    requires WellGrouped(groups)
    ensures WellGrouped(Added(groups, q))
    ensures forall g :: g in Added(groups, q) ==>
      (g.tag == q.tag && g.region == q.region) || exists h :: h in groups && h.tag == g.tag && h.region == g.region
    decreases |groups|
  {
    if groups != [] && !(groups[0].tag == q.tag && groups[0].region == q.region) {
      assert WellGrouped(groups[1..]);
      AddedKeepsGroups(groups[1..], q);
      var rest := Added(groups[1..], q);
      forall j | 0 <= j < |rest|
        ensures (groups[0].tag, groups[0].region) != (rest[j].tag, rest[j].region)
      {
        assert rest[j] in rest;
      }
    }
  }

  lemma {:induction false} GroupsAreKeyed(quotas: seq<Quota>)
    ensures WellGrouped(Grouped(quotas))
  {
    if quotas != [] {
      GroupsAreKeyed(quotas[..|quotas| - 1]);
      AddedKeepsGroups(Grouped(quotas[..|quotas| - 1]), quotas[|quotas| - 1]);
    }
  }

  /**
   For all scenarios and mappings, the quotas verified through the grouping are exactly those the
   direct count counts, each as often as declared.
   */
  lemma {:induction false} GroupingConserves(scenarios: seq<Scenario>, mappings: Mappings)
    ensures multiset(AllItems(Units(scenarios, mappings))) == multiset(Direct(scenarios, mappings))
    ensures |AllItems(Units(scenarios, mappings))| == |Direct(scenarios, mappings)|
  {
    if scenarios != [] {
      var front, last := scenarios[..|scenarios| - 1], scenarios[|scenarios| - 1];
      GroupingConserves(front, mappings);
      var units := UnitsOne(last.name, Grouped(last.quotas), MappingFor(mappings, last.name));
      AllItemsOfSum(Units(front, mappings), units);
      GroupingConservesOne(last.name, last.quotas, MappingFor(mappings, last.name));
    }
    SameSize(AllItems(Units(scenarios, mappings)), Direct(scenarios, mappings));
  }

  lemma SameSize(xs: seq<Item>, ys: seq<Item>)
    requires multiset(xs) == multiset(ys)
    ensures |xs| == |ys|
  {
    assert |multiset(xs)| == |multiset(ys)|;
  }

  // ---- one verification ----------------------------------------------------------------------------

  /** The status of a verified quota; every status but Met comes from the request history. */
  datatype Status = Requested | AlreadyPending | Met | Approved | CaseClosed | Denied | Failed

  /** Reads a quota's current value, None on an API error. */
  type Reading = Item -> Option<real>

  predicate IsMet(i: Item, read: Reading) {
    read(i).Some? && read(i).value >= i.quota.desired
  }

  function StatusOf(i: Item, read: Reading, history: Item -> Status): Status
    requires read(i).Some?
  {
    if read(i).value >= i.quota.desired then Met else history(i)
  }

  function CountMet(items: seq<Item>, read: Reading): nat {
    if items == [] then 0 else
      CountMet(items[..|items| - 1], read) + (if IsMet(items[|items| - 1], read) then 1 else 0)
  }

  /** One result per requested increase, in order; None where a read raised. */
  method VerifyQuotas(u: Unit, read: Reading, history: Item -> Status) returns (results: Option<seq<Status>>)
    ensures results.Some? <==> forall i :: i in ItemsOf(u) ==> read(i).Some?
    ensures results.Some? ==> |results.value| == |u.increases|
    ensures results.Some? ==> forall k :: 0 <= k < |u.increases| ==>
      read(ItemsOf(u)[k]).Some? && results.value[k] == StatusOf(ItemsOf(u)[k], read, history)
  {
    var out := [];
    for k := 0 to |u.increases|
      invariant |out| == k
      invariant forall j :: 0 <= j < k ==>
        read(ItemsOf(u)[j]).Some? && out[j] == StatusOf(ItemsOf(u)[j], read, history)
    {
      var item := Item(u.scenario, u.account, u.increases[k]);
      assert ItemsOf(u)[k] == item && item in ItemsOf(u);
      var current := read(item);
      if current.None? {
        return None;
      }
      if current.value >= item.quota.desired {
        out := out + [Met];
      } else {
        out := out + [history(item)];
      }
    }
    return Some(out);
  }

  // ---- the check ------------------------------------------------------------------------------------

  datatype Check = AllMet | Insufficient(unmet: seq<Item>) | Broken

  function Unmet(items: seq<Item>, read: Reading): seq<Item> {
    if items == [] then [] else
      var last := items[|items| - 1];
      Unmet(items[..|items| - 1], read) + (if IsMet(last, read) then [] else [last])
  }

  predicate Readable(items: seq<Item>, read: Reading) {
    forall i :: i in items ==> read(i).Some?
  }

  /** The history never reports a quota as met. */
  ghost predicate ValidHistory(history: Item -> Status) {
    forall i :: !history(i).Met?
  }

  lemma {:induction false} UnmetOfSum(xs: seq<Item>, ys: seq<Item>, read: Reading)
    ensures Unmet(xs + ys, read) == Unmet(xs, read) + Unmet(ys, read)
  {
    if ys == [] {
      assert xs + ys == xs;
    } else {
      assert (xs + ys)[..|xs + ys| - 1] == xs + ys[..|ys| - 1];
      UnmetOfSum(xs, ys[..|ys| - 1], read);
    }
  }

  /** Verify every unit; the units' unmet quotas, concatenated, are the failures. */
  method CheckQuotaSufficiency(scenarios: seq<Scenario>, mappings: Mappings, read: Reading, history: Item -> Status)
    returns (c: Check)
    requires ValidHistory(history)
    ensures var items := AllItems(Units(scenarios, mappings));
      && (c.Broken? <==> !Readable(items, read))
      && (c.AllMet? <==> Readable(items, read) && Unmet(items, read) == [])
      && (c.Insufficient? ==> c.unmet == Unmet(items, read))
  {
    var units := BuildWorkUnits(scenarios, mappings);
    var failures, broken := [], false;
    for i := 0 to |units|
      invariant !broken <==> Readable(AllItems(units[..i]), read)
      invariant !broken ==> failures == Unmet(AllItems(units[..i]), read)
    {
      var u := units[i];
      AllItemsOfSum(units[..i], [u]);
      assert units[..i + 1] == units[..i] + [u];
      assert AllItems([u]) == ItemsOf(u);
      var results := VerifyQuotas(u, read, history);
      UnmetOfSum(AllItems(units[..i]), ItemsOf(u), read);
      ReadableOfSum(AllItems(units[..i]), ItemsOf(u), read);
      if results.None? {
        broken := true;
      } else {
        var group := UnmetResults(u, results.value, read, history);
        failures := failures + group;
      }
    }
    assert units[..|units|] == units;
    return if broken then Broken else if failures == [] then AllMet else Insufficient(failures);
  }

  lemma ReadableOfSum(xs: seq<Item>, ys: seq<Item>, read: Reading)
    ensures Readable(xs + ys, read) <==> Readable(xs, read) && Readable(ys, read)
  {
    assert forall i :: i in xs + ys <==> i in xs || i in ys;
  }

  /** The results that are not Met, as failures. */
  method UnmetResults(u: Unit, results: seq<Status>, read: Reading, history: Item -> Status) returns (unmet: seq<Item>)
    requires ValidHistory(history) && |results| == |u.increases|
    requires forall k :: 0 <= k < |u.increases| ==>
      read(ItemsOf(u)[k]).Some? && results[k] == StatusOf(ItemsOf(u)[k], read, history)
    ensures unmet == Unmet(ItemsOf(u), read)
  {
    unmet := [];
    for k := 0 to |results|
      invariant unmet == Unmet(ItemsOf(u)[..k], read)
    {
      assert ItemsOf(u)[..k + 1][..k] == ItemsOf(u)[..k];
      if results[k] != Met {
        unmet := unmet + [Item(u.scenario, u.account, u.increases[k])];
      }
    }
    assert ItemsOf(u)[..|results|] == ItemsOf(u);
  }

  // ---- conservation -----------------------------------------------------------------------------------

  lemma {:induction false} MetAndUnmet(items: seq<Item>, read: Reading)
    ensures CountMet(items, read) + |Unmet(items, read)| == |items|
  {
    if items != [] {
      MetAndUnmet(items[..|items| - 1], read);
    }
  }

  lemma {:induction false} CountMetOfSum(xs: seq<Item>, ys: seq<Item>, read: Reading)
    ensures CountMet(xs + ys, read) == CountMet(xs, read) + CountMet(ys, read)
  {
    if ys == [] {
      assert xs + ys == xs;
    } else {
      assert (xs + ys)[..|xs + ys| - 1] == xs + ys[..|ys| - 1];
      CountMetOfSum(xs, ys[..|ys| - 1], read);
    }
  }

  function Without(items: seq<Item>, k: nat): seq<Item>
    requires k < |items|
  {
    items[..k] + items[k + 1..]
  }

  lemma CountMetWithout(items: seq<Item>, k: nat, read: Reading)
    requires k < |items|
    ensures CountMet(items, read) == CountMet(Without(items, k), read) + (if IsMet(items[k], read) then 1 else 0)
  {
    CountMetAround(items[..k], items[k], items[k + 1..], read);
    Around(items, k);
  }

  lemma Around(items: seq<Item>, k: nat)
    requires k < |items|
    ensures items == items[..k] + ([items[k]] + items[k + 1..])
  {
  }

  lemma CountMetAround(before: seq<Item>, i: Item, after: seq<Item>, read: Reading)
    ensures CountMet(before + ([i] + after), read) == CountMet(before + after, read) + (if IsMet(i, read) then 1 else 0)
  {
    CountMetOfSum(before, [i] + after, read);
    CountMetOfSum([i], after, read);
    CountMetOfSum(before, after, read);
    assert [i][..0] == [];
  }

  lemma PermutationWithout(xs: seq<Item>, ys: seq<Item>) returns (k: nat)
    requires xs != [] && multiset(xs) == multiset(ys)
    ensures k < |ys| && ys[k] == xs[|xs| - 1]
    ensures multiset(xs[..|xs| - 1]) == multiset(Without(ys, k))
  {
    var x := xs[|xs| - 1];
    assert xs == xs[..|xs| - 1] + [x];
    assert x in multiset(ys);
    k :| 0 <= k < |ys| && ys[k] == x;
    assert ys == ys[..k] + [x] + ys[k + 1..];
    assert multiset(ys) == multiset(Without(ys, k)) + multiset{x};
    assert multiset(xs) == multiset(xs[..|xs| - 1]) + multiset{x};
    assert multiset(Without(ys, k)) == multiset(ys) - multiset{x};
  }

  lemma {:induction false} CountMetOfPermutation(xs: seq<Item>, ys: seq<Item>, read: Reading)
    requires multiset(xs) == multiset(ys)
    ensures CountMet(xs, read) == CountMet(ys, read)
    decreases |xs|
  {
    if xs == [] {
      SameSize(xs, ys);
    } else {
      var k := PermutationWithout(xs, ys);
      CountMetOfPermutation(xs[..|xs| - 1], Without(ys, k), read);
      CountMetWithout(ys, k, read);
    }
  }

  /**
   The progress a poll reports, total - unmet, is the number of declared and mapped quotas whose
   current value is at least the desired one.
   */
  lemma ReportedProgressIsMet(scenarios: seq<Scenario>, mappings: Mappings, read: Reading)
    ensures var total, unmet := |Direct(scenarios, mappings)|, Unmet(AllItems(Units(scenarios, mappings)), read);
      |unmet| <= total && total - |unmet| == CountMet(Direct(scenarios, mappings), read)
  {
    GroupingConserves(scenarios, mappings);
    MetAndUnmet(AllItems(Units(scenarios, mappings)), read);
    CountMetOfPermutation(AllItems(Units(scenarios, mappings)), Direct(scenarios, mappings), read);
  }

  /** A poll that finds everything met has found every declared, mapped quota met. */
  lemma AllMetMeansAll(scenarios: seq<Scenario>, mappings: Mappings, read: Reading)
    ensures Unmet(AllItems(Units(scenarios, mappings)), read) == []
       <==> forall i :: i in Direct(scenarios, mappings) ==> IsMet(i, read)
  {
    GroupingConserves(scenarios, mappings);
    var items, direct := AllItems(Units(scenarios, mappings)), Direct(scenarios, mappings);
    NoneUnmet(items, read);
    SameItems(scenarios, mappings);
  }

  lemma {:induction false} NoneUnmet(items: seq<Item>, read: Reading)
    ensures Unmet(items, read) == [] <==> forall i :: i in items ==> IsMet(i, read)
  {
    if items != [] {
      NoneUnmet(items[..|items| - 1], read);
      assert items == items[..|items| - 1] + [items[|items| - 1]];
    }
  }

  // ---- waiting for approval ----------------------------------------------------------------------------

  function CeilingOf(timeout: int, interval: int): nat
    requires interval > 0
  {
    if timeout <= 0 then 0 else (timeout + interval - 1) / interval
  }

  /** The clock when each poll comes back: `interval` apart at least, the first not before `start`. */
  predicate Spaced(clocks: nat -> int, start: int, interval: int, n: nat) {
    && start <= clocks(0)
    && forall i: nat :: 0 < i <= n ==> clocks(i - 1) + interval <= clocks(i)
  }

  lemma {:induction false} ClockAtLeast(clocks: nat -> int, start: int, interval: int, n: nat, i: nat)
    requires Spaced(clocks, start, interval, n) && i <= n
    ensures start + i * interval <= clocks(i)
  {
    if i > 0 {
      ClockAtLeast(clocks, start, interval, n, i - 1);
      assert i * interval == (i - 1) * interval + interval;
    }
  }

  lemma Scaled(i: int, j: int, interval: int)
    requires i <= j && 0 < interval
    ensures i * interval <= j * interval
  {
    assert 0 <= (j - i) * interval;
    assert (j - i) * interval == j * interval - i * interval;
  }

  lemma CeilingCovers(timeout: int, interval: int)
    requires 0 < interval && 0 < timeout
    ensures var q := CeilingOf(timeout, interval);
      timeout <= q * interval < timeout + interval
  {
    var x := timeout + interval - 1;
    assert x == (x / interval) * interval + x % interval;
  }

  lemma BeforeDeadline(timeout: int, interval: int, i: nat)
    requires interval > 0 && i * interval < timeout
    ensures i < CeilingOf(timeout, interval)
  {
    Scaled(0, i, interval);
    CeilingCovers(timeout, interval);
    if CeilingOf(timeout, interval) <= i {
      Scaled(CeilingOf(timeout, interval), i, interval);
    }
  }

  lemma WithinBound(timeout: int, interval: int, i: nat)
    requires interval > 0 && i < CeilingOf(timeout, interval)
    ensures i * interval < timeout
  {
    var q := CeilingOf(timeout, interval);
    CeilingCovers(timeout, interval);
    Scaled(i, q - 1, interval);
    assert (q - 1) * interval == q * interval - interval;
  }

  /** Every quota of every scenario whose tag has an account reads, there, at least the value it declares. */
  ghost predicate EveryQuotaReached(scenarios: seq<Scenario>, mappings: Mappings, read: Reading) {
    forall i, j :: 0 <= i < |scenarios| && 0 <= j < |scenarios[i].quotas| ==>
      var sc, q := scenarios[i], scenarios[i].quotas[j];
      sc.name in mappings && q.tag in mappings[sc.name] ==>
        var current := read(Item(sc.name, mappings[sc.name][q.tag], q));
        current.Some? && current.value >= q.desired
  }

  lemma {:induction false} DirectOneHolds(name: string, quotas: seq<Quota>, mapping: map<string, string>, i: Item)
    ensures i in DirectOne(name, quotas, mapping)
       <==> i.scenario == name && i.quota in quotas && i.quota.tag in mapping && i.account == mapping[i.quota.tag]
  {
    if quotas != [] {
      DirectOneHolds(name, quotas[..|quotas| - 1], mapping, i);
      assert quotas == quotas[..|quotas| - 1] + [quotas[|quotas| - 1]];
    }
  }

  /** A scenario declares the item's quota, and its tag is mapped to the item's account. */
  ghost predicate IsDeclared(scenarios: seq<Scenario>, mappings: Mappings, i: Item) {
    exists sc :: && sc in scenarios && sc.name == i.scenario && i.quota in sc.quotas && sc.name in mappings
                 && i.quota.tag in mappings[sc.name] && i.account == mappings[sc.name][i.quota.tag]
  }

  /** The items to verify: every declared quota whose tag is mapped, in the account it is mapped to. */
  lemma {:induction false} DirectHolds(scenarios: seq<Scenario>, mappings: Mappings, i: Item)
    ensures i in Direct(scenarios, mappings) <==> IsDeclared(scenarios, mappings, i)
  {
    if scenarios != [] {
      var front, last := scenarios[..|scenarios| - 1], scenarios[|scenarios| - 1];
      DirectHolds(front, mappings, i);
      DirectOneHolds(last.name, last.quotas, MappingFor(mappings, last.name), i);
      assert scenarios == front + [last];
    }
  }

  /** All verified means just that: every mapped quota reached, read where it is mapped. */
  lemma AllVerifiedMeans(scenarios: seq<Scenario>, mappings: Mappings, read: Reading)
    ensures AllVerified(scenarios, mappings, read) <==> EveryQuotaReached(scenarios, mappings, read)
  {
    if AllVerified(scenarios, mappings, read) {
      forall i, j | 0 <= i < |scenarios| && 0 <= j < |scenarios[i].quotas|
                    && scenarios[i].name in mappings && scenarios[i].quotas[j].tag in mappings[scenarios[i].name]
        ensures var item := Item(scenarios[i].name, mappings[scenarios[i].name][scenarios[i].quotas[j].tag], scenarios[i].quotas[j]);
          read(item).Some? && read(item).value >= item.quota.desired
      {
        var item := Item(scenarios[i].name, mappings[scenarios[i].name][scenarios[i].quotas[j].tag], scenarios[i].quotas[j]);
        assert scenarios[i] in scenarios && item.quota in scenarios[i].quotas;
        DirectHolds(scenarios, mappings, item);
        assert IsMet(item, read);
      }
    }
    if EveryQuotaReached(scenarios, mappings, read) {
      forall item | item in Direct(scenarios, mappings)
        ensures IsMet(item, read)
      {
        DirectHolds(scenarios, mappings, item);
        var i :| 0 <= i < |scenarios| && scenarios[i].name == item.scenario && item.quota in scenarios[i].quotas
                 && scenarios[i].name in mappings && item.quota.tag in mappings[scenarios[i].name];
        var j :| 0 <= j < |scenarios[i].quotas| && scenarios[i].quotas[j] == item.quota;
      }
    }
  }

  ghost predicate AllVerified(scenarios: seq<Scenario>, mappings: Mappings, read: Reading) {
    forall i :: i in Direct(scenarios, mappings) ==> IsMet(i, read)
  }

  /** What a poll tells the observer: the number of met quotas, or nothing if a read raised. */
  function Progress(scenarios: seq<Scenario>, mappings: Mappings, read: Reading): Option<nat> {
    if forall i :: i in Direct(scenarios, mappings) ==> read(i).Some?
    then Some(CountMet(Direct(scenarios, mappings), read)) else None
  }

  lemma SameItems(scenarios: seq<Scenario>, mappings: Mappings)
    ensures forall i :: i in AllItems(Units(scenarios, mappings)) <==> i in Direct(scenarios, mappings)
  {
    GroupingConserves(scenarios, mappings);
    var items, direct := AllItems(Units(scenarios, mappings)), Direct(scenarios, mappings);
    forall i
      ensures i in items <==> i in direct
    {
      assert i in items <==> i in multiset(items);
      assert i in direct <==> i in multiset(direct);
    }
  }

  /** One poll of the wait: check everything, notify the observer. */
  method Poll(scenarios: seq<Scenario>, mappings: Mappings, total: nat, read: Reading, history: Item -> Status)
    returns (c: Check, progress: Option<nat>)
    requires ValidHistory(history) && total == |Direct(scenarios, mappings)|
    ensures c.AllMet? <==> AllVerified(scenarios, mappings, read)
    ensures c.AllMet? <==> EveryQuotaReached(scenarios, mappings, read)
    ensures progress == Progress(scenarios, mappings, read)
    ensures c.Insufficient? ==> c.unmet == Unmet(AllItems(Units(scenarios, mappings)), read)
  {
    c := CheckQuotaSufficiency(scenarios, mappings, read, history);
    SameItems(scenarios, mappings);
    AllMetMeansAll(scenarios, mappings, read);
    AllVerifiedMeans(scenarios, mappings, read);
    ReportedProgressIsMet(scenarios, mappings, read);
    match c
    case AllMet => progress := Some(total);
    case Insufficient(unmet) => progress := Some(total - |unmet|);
    case Broken => progress := None;
  }

  /** Before poll `n`, every poll found something unmet and came back before the deadline. */
  ghost predicate Waited(scenarios: seq<Scenario>, mappings: Mappings, readings: nat -> Reading, clocks: nat -> int,
                         deadline: int, n: nat) {
    forall i: nat :: i < n ==> !EveryQuotaReached(scenarios, mappings, readings(i)) && clocks(i) < deadline
  }

  ghost predicate Reported(scenarios: seq<Scenario>, mappings: Mappings, readings: nat -> Reading, progress: seq<Option<nat>>) {
    forall i :: 0 <= i < |progress| ==> progress[i] == Progress(scenarios, mappings, readings(i))
  }

  lemma WaitGoesOn(scenarios: seq<Scenario>, mappings: Mappings, readings: nat -> Reading, clocks: nat -> int,
                   start: int, timeout: int, interval: int, n: nat)
    requires interval > 0 && Spaced(clocks, start, interval, CeilingOf(timeout, interval)) && n <= CeilingOf(timeout, interval)
    requires Waited(scenarios, mappings, readings, clocks, start + timeout, n)
    requires !EveryQuotaReached(scenarios, mappings, readings(n)) && clocks(n) < start + timeout
    ensures Waited(scenarios, mappings, readings, clocks, start + timeout, n + 1) && n < CeilingOf(timeout, interval)
  {
    ClockAtLeast(clocks, start, interval, CeilingOf(timeout, interval), n);
    BeforeDeadline(timeout, interval, n);
  }

  lemma OneMoreReport(scenarios: seq<Scenario>, mappings: Mappings, readings: nat -> Reading, progress: seq<Option<nat>>,
                      notice: Option<nat>)
    requires Reported(scenarios, mappings, readings, progress)
    requires notice == Progress(scenarios, mappings, readings(|progress|))
    ensures Reported(scenarios, mappings, readings, progress + [notice])
  {
  }

  /**
   Poll until everything is met or the deadline has passed. It returns only on the first poll that
   finds every declared, mapped quota met, raises only what a poll past the deadline ended with,
   makes at most ceil(timeout / interval) + 1 polls, and reports at each the number of met quotas.
   */
  method AwaitQuotaApprovals(scenarios: seq<Scenario>, mappings: Mappings, readings: nat -> Reading, history: Item -> Status,
                             clocks: nat -> int, start: int, timeout: int, interval: int)
    returns (last: nat, failure: Option<Check>, progress: seq<Option<nat>>)
    requires ValidHistory(history)
    requires interval > 0 && Spaced(clocks, start, interval, CeilingOf(timeout, interval))
    ensures last + 1 <= CeilingOf(timeout, interval) + 1
    ensures failure.None? <==> EveryQuotaReached(scenarios, mappings, readings(last))
    ensures failure.Some? ==> start + timeout <= clocks(last) && !failure.value.AllMet?
    ensures failure.Some? && failure.value.Insufficient? ==>
      failure.value.unmet == Unmet(AllItems(Units(scenarios, mappings)), readings(last))
    ensures Waited(scenarios, mappings, readings, clocks, start + timeout, last)
    ensures |progress| == last + 1 && Reported(scenarios, mappings, readings, progress)
  {
    var total := CountQuotasToVerify(scenarios, mappings);
    last, progress := 0, [];
    while true
      invariant last <= CeilingOf(timeout, interval) && |progress| == last
      invariant Waited(scenarios, mappings, readings, clocks, start + timeout, last)
      invariant Reported(scenarios, mappings, readings, progress)
      decreases CeilingOf(timeout, interval) - last
    {
      var c, notice := Poll(scenarios, mappings, total, readings(last), history);
      OneMoreReport(scenarios, mappings, readings, progress, notice);
      progress := progress + [notice];
      if c.AllMet? {
        return last, None, progress;
      }
      if clocks(last) >= start + timeout {
        return last, Some(c), progress;
      }
      WaitGoesOn(scenarios, mappings, readings, clocks, start, timeout, interval, last);
      last := last + 1;
    }
  }

  function InstantClocks(interval: int): nat -> int {
    (i: nat) => i * interval
  }

  /** The bound is reached by polls that take no time and never find everything met. */
  lemma WaitBoundIsReached(timeout: int, interval: int)
    requires interval > 0 && timeout > 0
    ensures var clocks, n := InstantClocks(interval), CeilingOf(timeout, interval);
      && Spaced(clocks, 0, interval, n)
      && (forall i: nat :: i < n ==> clocks(i) < timeout)
      && timeout <= clocks(n)
  {
    var clocks, n := InstantClocks(interval), CeilingOf(timeout, interval);
    forall i: nat | 0 < i <= n
      ensures clocks(i - 1) + interval <= clocks(i)
    {
      assert (i - 1) * interval + interval == i * interval;
    }
    forall i: nat | i < n
      ensures clocks(i) < timeout
    {
      WithinBound(timeout, interval, i);
    }
    if n * interval < timeout {
      BeforeDeadline(timeout, interval, n);
    }
  }

  // ---- requesting one increase ------------------------------------------------------------------------

  datatype Response = Accepted | AlreadyExists | IllegalArgument | RegionDisabled | OtherError

  /** Only a region still inactive for the new account is worth another attempt. */
  predicate Decides(r: Response) {
    !r.RegionDisabled?
  }

  /** What a deciding response means; None for an unexpected error. */
  function Meaning(r: Response): Option<Status>
    requires Decides(r)
  {
    match r
    case Accepted => Some(Requested)
    case AlreadyExists => Some(AlreadyPending)
    case IllegalArgument => Some(Met)
    case OtherError => None
  }

  /** At most `maxRetries` + 1 attempts, a sleep between each two; the first deciding response settles it. */
  method RequestIncrease(responses: nat -> Response, maxRetries: nat) returns (status: Option<Status>, attempts: nat, sleeps: nat)
    ensures 1 <= attempts <= maxRetries + 1 && sleeps == attempts - 1
    ensures forall i: nat :: i < attempts - 1 ==> responses(i) == RegionDisabled
    ensures match responses(attempts - 1)
            case Accepted => status == Some(Requested)
            case AlreadyExists => status == Some(AlreadyPending)
            case IllegalArgument => status == Some(Met)
            case OtherError => status == None
            case RegionDisabled => status == None && attempts == maxRetries + 1
  {
    attempts, sleeps := 0, 0;
    while attempts <= maxRetries
      invariant attempts <= maxRetries + 1 && sleeps == if attempts <= maxRetries then attempts else maxRetries
      invariant forall i: nat :: i < attempts ==> !Decides(responses(i))
    {
      var r := responses(attempts);
      attempts := attempts + 1;
      if Decides(r) {
        return Meaning(r), attempts, sleeps;
      }
      if attempts <= maxRetries {
        sleeps := sleeps + 1;
      }
    }
    return None, attempts, sleeps;
  }

  /** The response at attempt `j`, the first that decides or the last allowed, gives the status. */
  ghost predicate SettlesAt(responses: nat -> Response, status: Status, j: nat) {
    && j <= 3
    && (forall i: nat :: i < j ==> responses(i) == RegionDisabled)
    && (responses(j) == RegionDisabled ==> j == 3)
    && match responses(j)
       case Accepted => status == Requested
       case AlreadyExists => status == AlreadyPending
       case IllegalArgument => status == Met
       case _ => status == Failed
  }

  ghost predicate Settles(responses: nat -> Response, status: Status) {
    exists j: nat :: SettlesAt(responses, status, j)
  }

  /** One result per configured increase, in order; a request that errors is a Failed result. */
  method RequestQuotas(n: nat, responses: nat -> nat -> Response) returns (results: seq<Status>)
    ensures |results| == n
    ensures forall k :: 0 <= k < n ==> Settles(responses(k), results[k])
  {
    results := [];
    for k := 0 to n
      invariant |results| == k
      invariant forall m :: 0 <= m < k ==> Settles(responses(m), results[m])
    {
      var status, attempts, _ := RequestIncrease(responses(k), 3);
      results := results + [if status.Some? then status.value else Failed];
      assert SettlesAt(responses(k), results[k], attempts - 1);
    }
  }
}
