/**
 Collecting exports: each (account, region) pair is fetched concurrently, flattened, and folded
 into one namespace per account in whatever order the fetches complete.
 */
module Exports {
  import opened Wrappers

  type Account = string
  type Region = string
  type Pair = (Account, Region)

  /** A name and its value. */
  type Item = (string, string)

  /** How a value parses: the (sub-key, text) pairs of a JSON object, or None for anything else. */
  type Json = string -> Option<seq<Item>>

  /** What one pair's reads give: an API error, or the CloudFormation exports and SSM parameters. */
  datatype Fetch = Broken | Listing(cfn: seq<Item>, ssm: seq<Item>)

  // ---- what the exports of an account are, with no order in it --------------------------------------

  /** The part of a parameter path after its last slash. */
  function LastSegment(path: string): (r: string)
    ensures '/' !in r && |r| <= |path| && path[|path| - |r|..] == r
    ensures |r| < |path| ==> path[|path| - |r| - 1] == '/'
  {
    if path == [] || path[|path| - 1] == '/' then []
    else LastSegment(path[..|path| - 1]) + [path[|path| - 1]]
  }

  function Elements(items: seq<Item>): set<Item> {
    set e | e in items
  }

  function Renamed(ssm: seq<Item>): seq<Item> {
    seq(|ssm|, i requires 0 <= i < |ssm| => (LastSegment(ssm[i].0), ssm[i].1))
  }

  function Raw(l: Fetch): set<Item>
    requires l.Listing?
  {
    Elements(l.cfn) + Elements(Renamed(l.ssm))
  }

  function Synthetic(e: Item, json: Json): seq<Item> {
    match json(e.1)
    case None => []
    case Some(subs) => seq(|subs|, i requires 0 <= i < |subs| => (e.0 + "-" + subs[i].0, subs[i].1))
  }

  /** An export and, if its value is a JSON object, one entry per sub-key. */
  function Expanded(e: Item, json: Json): set<Item> {
    {e} + Elements(Synthetic(e, json))
  }

  function Flat(raw: set<Item>, json: Json): set<Item> {
    set e, f | e in raw && f in Expanded(e, json) :: f
  }

  /** What each pair contributes, raw or flattened, to its account. */
  function Share(fetch: Pair -> Fetch, json: Json): Pair -> set<Item> {
    p => if fetch(p).Listing? then Flat(Raw(fetch(p)), json) else {}
  }

  /** Every entry any region of the account contributes. */
  function Entries(pairs: set<Pair>, share: Pair -> set<Item>, a: Account): set<Item> {
    set p, e | p in pairs && p.0 == a && e in share(p) :: e
  }

  /** No two entries share a name with different values. */
  ghost predicate Functional(items: set<Item>) {
    forall e, f :: e in items && f in items && e.0 == f.0 ==> e.1 == f.1
  }

  ghost predicate Collectable(work: set<Pair>, granted: Account -> bool, fetch: Pair -> Fetch, share: Pair -> set<Item>) {
    && (forall p :: p in work ==> granted(p.0) && fetch(p).Listing?)
    && (forall p :: p in work ==> Functional(Entries(work, share, p.0)))
  }

  /** A namespace as the set of its items. */
  function Of(m: map<string, string>): set<Item> {
    set name | name in m :: (name, m[name])
  }

  lemma NamespacesAreFunctional(m: map<string, string>)
    ensures Functional(Of(m))
  {
  }

  lemma OfUpdate(m: map<string, string>, name: string, value: string)
    requires name in m ==> m[name] == value
    ensures Of(m[name := value]) == Of(m) + {(name, value)}
  {
    forall e
      ensures e in Of(m[name := value]) <==> e in Of(m) + {(name, value)}
    {
      OfHolds(m, e);
      OfHolds(m[name := value], e);
    }
  }

  lemma OfHolds(m: map<string, string>, e: Item)
    ensures e in Of(m) <==> e.0 in m && m[e.0] == e.1
  {
    assert e == (e.0, e.1);
  }

  lemma OfRest(m: map<string, string>, rest: set<string>, name: string)
    requires name in rest && rest <= m.Keys
    ensures Of(m - (rest - {name})) == Of(m - rest) + {(name, m[name])}
  {
    forall e
      ensures e in Of(m - (rest - {name})) <==> e in Of(m - rest) + {(name, m[name])}
    {
      OfHolds(m - (rest - {name}), e);
      OfHolds(m - rest, e);
    }
  }

  lemma OfPart(m: map<string, string>, rest: set<string>)
    ensures Of(m - rest) <= Of(m)
  {
    forall e | e in Of(m - rest)
      ensures e in Of(m)
    {
      OfHolds(m - rest, e);
      OfHolds(m, e);
    }
  }

  lemma ElementsOfLast(items: seq<Item>, n: nat)
    requires n < |items|
    ensures Elements(items[..n + 1]) == Elements(items[..n]) + {items[n]}
  {
    assert items[..n + 1] == items[..n] + [items[n]];
  }

  // ---- the fold --------------------------------------------------------------------------------------

  lemma RefusedWithMore(part: set<Item>, whole: set<Item>)
    requires part <= whole && !Functional(part)
    ensures !Functional(whole)
  {
  }

  class Namespace {
    var entries: map<string, string>

    constructor ()
      ensures entries == map[]
    {
      entries := map[];
    }

    /** A repeat with the same value is idempotent; one with a different value is refused. */
    method Put(name: string, value: string) returns (ok: bool)
      modifies this
      ensures ok <==> Functional(Of(old(entries)) + {(name, value)})
      ensures Of(entries) == Of(old(entries)) + (if ok then {(name, value)} else {})
    {
      if name in entries && entries[name] != value {
        OfHolds(entries, (name, entries[name]));
        return false;
      }
      OfUpdate(entries, name, value);
      entries := entries[name := value];
      NamespacesAreFunctional(entries);
      return true;
    }

    /** In order, up to the first refusal; what was put before it stays. */
    method PutEach(items: seq<Item>) returns (ok: bool)
      modifies this
      ensures ok <==> Functional(Of(old(entries)) + Elements(items))
      ensures ok ==> Of(entries) == Of(old(entries)) + Elements(items)
      ensures Of(old(entries)) <= Of(entries) <= Of(old(entries)) + Elements(items)
    {
      ghost var before := Of(entries);
      NamespacesAreFunctional(entries);
      for i := 0 to |items|
        invariant Of(entries) == before + Elements(items[..i])
      {
        ElementsOfLast(items, i);
        ok := Put(items[i].0, items[i].1);
        assert items[i] == (items[i].0, items[i].1);
        if !ok {
          return;
        }
      }
      NamespacesAreFunctional(entries);
      assert items[..|items|] == items;
      return true;
    }
  }

  /** A mapping's items, in any order. */
  method ItemsInSomeOrder(m: map<string, string>) returns (items: seq<Item>)
    ensures Elements(items) == Of(m)
  {
    items := [];
    var rest := m.Keys;
    while rest != {}
      invariant rest <= m.Keys
      invariant forall e :: e in items <==> e.0 in m && e.1 == m[e.0] && e.0 !in rest
      decreases |rest|
    {
      var name :| name in rest;
      items := items + [(name, m[name])];
      rest := rest - {name};
    }
    forall e
      ensures e in Elements(items) <==> e in Of(m)
    {
      OfHolds(m, e);
    }
  }

  lemma FlatOfMore(raw: set<Item>, e: Item, json: Json)
    ensures Flat(raw + {e}, json) == Flat(raw, json) + Expanded(e, json)
    ensures raw <= Flat(raw, json)
  {
    forall f | f in raw
      ensures f in Flat(raw, json)
    {
      assert f in Expanded(f, json);
    }
  }

  /** Flattening, over the exports in any order. */
  method FlattenJsonExports(exports: map<string, string>, json: Json) returns (r: Option<map<string, string>>)
    ensures r.Some? <==> Functional(Flat(Of(exports), json))
    ensures r.Some? ==> Of(r.value) == Flat(Of(exports), json)
  {
    var flat := new Namespace();
    var rest := exports.Keys;
    assert exports - exports.Keys == map[];
    while rest != {}
      invariant rest <= exports.Keys
      invariant Of(flat.entries) == Flat(Of(exports - rest), json)
      decreases |rest|
    {
      var name :| name in rest;
      ghost var next := Flat(Of(exports - (rest - {name})), json);
      OfRest(exports, rest, name);
      FlatOfMore(Of(exports - rest), (name, exports[name]), json);
      OfPart(exports, rest - {name});
      FlatGrows(Of(exports - (rest - {name})), Of(exports), json);
      var ok := FlattenOne(flat, name, exports[name], json);
      if !ok {
        RefusedWithMore(next, Flat(Of(exports), json));
        return None;
      }
      rest := rest - {name};
    }
    assert exports - {} == exports;
    NamespacesAreFunctional(flat.entries);
    return Some(flat.entries);
  }

  /** One export and its sub-keys, if its value is a JSON object. */
  method FlattenOne(flat: Namespace, name: string, value: string, json: Json) returns (ok: bool)
    modifies flat
    ensures ok <==> Functional(Of(old(flat.entries)) + Expanded((name, value), json))
    ensures ok ==> Of(flat.entries) == Of(old(flat.entries)) + Expanded((name, value), json)
  {
    ok := flat.Put(name, value);
    if ok {
      ok := flat.PutEach(Synthetic((name, value), json));
    }
    ghost var whole := Of(old(flat.entries)) + Expanded((name, value), json);
    assert Of(old(flat.entries)) + {(name, value)} + Elements(Synthetic((name, value), json)) == whole;
  }

  lemma FlatGrows(part: set<Item>, whole: set<Item>, json: Json)
    requires part <= whole
    ensures Flat(part, json) <= Flat(whole, json)
  {
  }

  /** One pair's raw exports: CloudFormation's first, then SSM's under their last path segment. */
  method CollectOne(l: Fetch) returns (r: Option<map<string, string>>)
    requires l.Listing?
    ensures r.Some? <==> Functional(Raw(l))
    ensures r.Some? ==> Of(r.value) == Raw(l)
  {
    var out := new Namespace();
    var ok := out.PutEach(l.cfn);
    if !ok {
      return None;
    }
    ok := out.PutEach(Renamed(l.ssm));
    if !ok {
      return None;
    }
    NamespacesAreFunctional(out.entries);
    return Some(out.entries);
  }

  /** One completed fetch folded into its account's namespace; a failing merge leaves it partly filled. */
  method MergeOne(dest: Namespace, l: Fetch, json: Json, ghost share: set<Item>) returns (ok: bool)
    requires l.Listing? ==> share == Flat(Raw(l), json)
    modifies dest
    ensures ok <==> l.Listing? && Functional(Of(old(dest.entries)) + share)
    ensures ok ==> Of(dest.entries) == Of(old(dest.entries)) + share
    ensures Of(old(dest.entries)) <= Of(dest.entries) <= Of(old(dest.entries)) + share
  {
    if l.Broken? {
      return false;
    }
    var out := CollectOne(l);
    assert Raw(l) <= Flat(Raw(l), json) by { FlatOfMore(Raw(l), ("", ""), json); }
    if out.None? {
      return false;
    }
    var flat := FlattenJsonExports(out.value, json);
    if flat.None? {
      return false;
    }
    var items := ItemsInSomeOrder(flat.value);
    ok := dest.PutEach(items);
  }

  datatype Failure = AssumeFailed(account: Account) | PairFailed(pair: Pair)

  /** `order` lists the fetchable pairs once each, as their fetches complete. */
  predicate Completes(order: seq<Pair>, work: set<Pair>, granted: Account -> bool) {
    && (forall i, j :: 0 <= i < j < |order| ==> order[i] != order[j])
    && (forall p :: p in order ==> p in work && granted(p.0))
    && (forall p :: p in work && granted(p.0) ==> p in order)
  }

  function Done(order: seq<Pair>, n: nat): set<Pair>
    requires n <= |order|
  {
    set p | p in order[..n]
  }

  function Accounts(pairs: set<Pair>): set<Account> {
    set p | p in pairs :: p.0
  }

  lemma EntriesOfMore(pairs: set<Pair>, p: Pair, share: Pair -> set<Item>, a: Account)
    ensures Entries(pairs + {p}, share, a) == Entries(pairs, share, a) + (if p.0 == a then share(p) else {})
  {
  }

  lemma EntriesGrow(part: set<Pair>, whole: set<Pair>, share: Pair -> set<Item>, a: Account)
    requires part <= whole
    ensures Entries(part, share, a) <= Entries(whole, share, a)
  {
  }

  lemma DoneOfMore(order: seq<Pair>, n: nat)
    requires n < |order|
    ensures Done(order, n + 1) == Done(order, n) + {order[n]}
    ensures Accounts(Done(order, n + 1)) == Accounts(Done(order, n)) + {order[n].0}
  {
    assert order[..n + 1] == order[..n] + [order[n]];
  }

  /** A refused merge means the whole work was not collectable. */
  lemma RefusalCondemns(work: set<Pair>, p: Pair, held: set<Item>, granted: Account -> bool, fetch: Pair -> Fetch, share: Pair -> set<Item>)
    requires p in work && held <= Entries(work, share, p.0)
    requires fetch(p).Broken? || !Functional(held + share(p))
    ensures !Collectable(work, granted, fetch, share)
  {
    if fetch(p).Listing? {
      EntriesOfMore(work, p, share, p.0);
      assert work + {p} == work;
      RefusedWithMore(held + share(p), Entries(work, share, p.0));
    }
  }

  /** The namespaces after folding in `pairs`: exact so far, or failed for good. */
  ghost predicate Folded(held: map<Account, set<Item>>, failed: bool, pairs: set<Pair>,
                         work: set<Pair>, granted: Account -> bool, fetch: Pair -> Fetch, share: Pair -> set<Item>) {
    && pairs <= work
    && held.Keys == Accounts(pairs)
    && (forall a :: a in held ==> held[a] <= Entries(pairs, share, a))
    && (if failed then !Collectable(work, granted, fetch, share)
        else (forall a :: a in held ==> held[a] == Entries(pairs, share, a))
             && (forall p :: p in pairs ==> fetch(p).Listing?))
  }

  function Held(held: map<Account, set<Item>>, a: Account): set<Item> {
    if a in held then held[a] else {}
  }

  lemma FoldStep(held: map<Account, set<Item>>, failed: bool, pairs: set<Pair>, p: Pair, ok: bool, after: set<Item>,
                 work: set<Pair>, granted: Account -> bool, fetch: Pair -> Fetch, share: Pair -> set<Item>)
    requires Folded(held, failed, pairs, work, granted, fetch, share) && p in work
    requires ok <==> fetch(p).Listing? && Functional(Held(held, p.0) + share(p))
    requires ok ==> after == Held(held, p.0) + share(p)
    requires after <= Held(held, p.0) + share(p)
    ensures Folded(held[p.0 := after], failed || !ok, pairs + {p}, work, granted, fetch, share)
  {
    forall a
      ensures Entries(pairs + {p}, share, a) == Entries(pairs, share, a) + (if p.0 == a then share(p) else {})
    {
      EntriesOfMore(pairs, p, share, a);
    }
    assert p.0 !in held ==> Entries(pairs, share, p.0) == {};
    EntriesGrow(pairs, work, share, p.0);
    if !ok {
      RefusalCondemns(work, p, Held(held, p.0), granted, fetch, share);
    }
    assert Accounts(pairs + {p}) == Accounts(pairs) + {p.0};
  }

  lemma FoldedIsCollected(held: map<Account, set<Item>>, work: set<Pair>, granted: Account -> bool, fetch: Pair -> Fetch, share: Pair -> set<Item>)
    requires Folded(held, false, work, work, granted, fetch, share)
    requires forall p :: p in work ==> granted(p.0)
    requires forall a :: a in held ==> Functional(held[a])
    ensures Collectable(work, granted, fetch, share)
  {
    forall p | p in work
      ensures Functional(Entries(work, share, p.0))
    {
      assert p.0 in held && held[p.0] == Entries(work, share, p.0);
    }
  }

  /** Assume the role once per account, the accounts in any order. */
  method AssumeRoles(accounts: set<Account>, granted: Account -> bool) returns (failures: seq<Failure>)
    ensures forall f :: f in failures <==> f.AssumeFailed? && f.account in accounts && !granted(f.account)
  {
    failures := [];
    var rest := accounts;
    while rest != {}
      invariant rest <= accounts
      invariant forall f :: f in failures <==> f.AssumeFailed? && f.account in accounts - rest && !granted(f.account)
      decreases |rest|
    {
      var a :| a in rest;
      if !granted(a) {
        failures := failures + [AssumeFailed(a)];
      }
      rest := rest - {a};
    }
  }

  lemma UpdatedTwice(m: map<Account, map<string, string>>, a: Account, x: map<string, string>, y: map<string, string>)
    ensures m[a := x][a := y] == m[a := y] && m[a := y][a] == y
  {
  }

  /** One namespace per account, created when its first fetch completes. */
  class Collector {
    var perAccount: map<Account, Namespace>
    ghost var Repr: set<Namespace>

    ghost predicate Valid()
      reads this
    {
      && (forall a :: a in perAccount ==> perAccount[a] in Repr)
      && forall a, b :: a in perAccount && b in perAccount && a != b ==> perAccount[a] != perAccount[b]
    }

    ghost function Contents(): map<Account, map<string, string>>
      reads this, Repr
      requires Valid()
    {
      map a | a in perAccount :: perAccount[a].entries
    }

    constructor ()
      ensures Valid() && perAccount == map[] && Repr == {}
    {
      perAccount, Repr := map[], {};
    }

    method NamespaceFor(a: Account) returns (dest: Namespace)
      requires Valid()
      modifies this
      ensures Valid() && a in perAccount && perAccount[a] == dest
      ensures dest in Repr && old(Repr) <= Repr && fresh(Repr - old(Repr))
      ensures a in old(perAccount) || fresh(dest)
      ensures dest.entries == Kept(old(Contents()), a)
      ensures Contents() == old(Contents())[a := dest.entries]
    {
      if a !in perAccount {
        var created := new Namespace();
        perAccount, Repr := perAccount[a := created], Repr + {created};
      }
      dest := perAccount[a];
    }

    /** Merge into a namespace that exists; no other account's entries move. */
    method MergeInto(dest: Namespace, a: Account, l: Fetch, json: Json, ghost share: set<Item>) returns (ok: bool)
      requires Valid() && a in perAccount && perAccount[a] == dest
      requires l.Listing? ==> share == Flat(Raw(l), json)
      modifies dest
      ensures Valid() && Contents() == old(Contents())[a := dest.entries]
      ensures ok <==> l.Listing? && Functional(Of(old(dest.entries)) + share)
      ensures ok ==> Of(dest.entries) == Of(old(dest.entries)) + share
      ensures Of(dest.entries) <= Of(old(dest.entries)) + share
    {
      ok := MergeOne(dest, l, json, share);
    }

    method Merge(a: Account, l: Fetch, json: Json, ghost share: set<Item>) returns (ok: bool)
      requires Valid()
      requires l.Listing? ==> share == Flat(Raw(l), json)
      modifies this, Repr
      ensures Valid() && fresh(Repr - old(Repr)) && a in perAccount
      ensures Contents() == old(Contents())[a := Contents()[a]]
      ensures ok <==> l.Listing? && Functional(Of(Kept(old(Contents()), a)) + share)
      ensures ok ==> Of(Contents()[a]) == Of(Kept(old(Contents()), a)) + share
      ensures Of(Contents()[a]) <= Of(Kept(old(Contents()), a)) + share
    {
      ghost var before := Contents();
      var dest := NamespaceFor(a);
      ghost var had := dest.entries;
      ok := MergeInto(dest, a, l, json, share);
      UpdatedTwice(before, a, had, dest.entries);
    }
  }

  /** The account's entries so far; none before its first fetch completes. */
  function Kept(contents: map<Account, map<string, string>>, a: Account): map<string, string> {
    if a in contents then contents[a] else map[]
  }

  function AsSets(contents: map<Account, map<string, string>>): map<Account, set<Item>> {
    map a | a in contents :: Of(contents[a])
  }

  lemma AsSetsOfUpdate(contents: map<Account, map<string, string>>, a: Account, m: map<string, string>)
    ensures AsSets(contents[a := m]) == AsSets(contents)[a := Of(m)]
    ensures Held(AsSets(contents), a) == Of(Kept(contents, a))
  {
  }

  method MergePair(collector: Collector, p: Pair, fetch: Pair -> Fetch, json: Json,
                   ghost failed: bool, ghost pairs: set<Pair>, ghost work: set<Pair>, ghost granted: Account -> bool)
    returns (ok: bool)
    requires collector.Valid() && p in work
    requires Folded(AsSets(collector.Contents()), failed, pairs, work, granted, fetch, Share(fetch, json))
    modifies collector, collector.Repr
    ensures collector.Valid() && fresh(collector.Repr - old(collector.Repr))
    ensures Folded(AsSets(collector.Contents()), failed || !ok, pairs + {p}, work, granted, fetch, Share(fetch, json))
    ensures fetch(p).Broken? ==> !ok
  {
    ghost var before, share := collector.Contents(), Share(fetch, json);
    ok := collector.Merge(p.0, fetch(p), json, share(p));
    ghost var after := collector.Contents()[p.0];
    AsSetsOfUpdate(before, p.0, after);
    FoldStep(AsSets(before), failed, pairs, p, ok, Of(after), work, granted, fetch, share);
  }

  /** Every broken fetch among the first `n` completions is listed. */
  predicate Listed(order: seq<Pair>, n: nat, fetch: Pair -> Fetch, broken: seq<Pair>)
    requires n <= |order|
  {
    forall j :: 0 <= j < n && fetch(order[j]).Broken? ==> order[j] in broken
  }

  /** Fold the completed fetches, in the order they complete. */
  method MergeAll(fetch: Pair -> Fetch, json: Json, order: seq<Pair>,
                  ghost failed: bool, ghost work: set<Pair>, ghost granted: Account -> bool)
    returns (collector: Collector, broken: seq<Pair>)
    requires forall p :: p in order ==> p in work
    requires failed ==> !Collectable(work, granted, fetch, Share(fetch, json))
    ensures collector.Valid() && Folded(AsSets(collector.Contents()), failed || broken != [], Done(order, |order|), work, granted, fetch, Share(fetch, json))
    ensures Listed(order, |order|, fetch, broken)
  {
    collector := new Collector();
    broken := [];
    ghost var bad, done := failed, {};
    for i := 0 to |order|
      invariant collector.Valid() && fresh(collector) && fresh(collector.Repr)
      invariant Folded(AsSets(collector.Contents()), bad, done, work, granted, fetch, Share(fetch, json))
      invariant bad == (failed || broken != []) && done == Done(order, i)
      invariant Listed(order, i, fetch, broken)
    {
      DoneOfMore(order, i);
      var ok := MergePair(collector, order[i], fetch, json, bad, done, work, granted);
      bad, done := bad || !ok, done + {order[i]};
      if !ok {
        broken := broken + [order[i]];
      }
    }
  }

  type Collected = Result<map<Account, map<string, string>>, seq<Failure>>

  /** What a collection owes its caller, with no completion order in it. */
  ghost predicate Owed(work: set<Pair>, granted: Account -> bool, fetch: Pair -> Fetch, share: Pair -> set<Item>, r: Collected) {
    && (r.Success? <==> Collectable(work, granted, fetch, share))
    && (r.Success? ==> r.value.Keys == Accounts(work)
                       && forall a :: a in r.value ==> Of(r.value[a]) == Entries(work, share, a))
  }

  lemma SameItems(m: map<string, string>, n: map<string, string>)
    requires Of(m) == Of(n)
    ensures m == n
  {
    forall name
      ensures name in m <==> name in n
      ensures name in m && name in n ==> m[name] == n[name]
    {
      if name in m {
        OfHolds(m, (name, m[name]));
        OfHolds(n, (name, m[name]));
      }
      if name in n {
        OfHolds(m, (name, n[name]));
        OfHolds(n, (name, n[name]));
      }
    }
  }

  /**
   The merge is confluent: two collections of the same work, whatever the orders their fetches
   completed in, both fail or return the same namespaces.
   */
  lemma AnyTwoOrdersAgree(work: set<Pair>, granted: Account -> bool, fetch: Pair -> Fetch, share: Pair -> set<Item>,
                          r: Collected, q: Collected)
    requires Owed(work, granted, fetch, share, r) && Owed(work, granted, fetch, share, q)
    ensures r.Success? <==> q.Success?
    ensures r.Success? ==> r == q
  {
    if r.Success? {
      forall a | a in r.value
        ensures r.value[a] == q.value[a]
      {
        SameItems(r.value[a], q.value[a]);
      }
      assert r.value == q.value;
    }
  }

  ghost predicate Compatible(s: set<Item>, t: set<Item>) {
    forall e, f :: e in s && f in t && e.0 == f.0 ==> e.1 == f.1
  }

  /** Spelled out: no two contributions to one account clash, within a pair or across its regions. */
  lemma CollectableMeans(work: set<Pair>, granted: Account -> bool, fetch: Pair -> Fetch, share: Pair -> set<Item>)
    ensures Collectable(work, granted, fetch, share)
       <==> (forall p :: p in work ==> granted(p.0) && fetch(p).Listing?)
            && (forall p, q :: p in work && q in work && p.0 == q.0 ==> Compatible(share(p), share(q)))
  {
    if Collectable(work, granted, fetch, share) {
      forall p, q, e, f | p in work && q in work && p.0 == q.0 && e in share(p) && f in share(q) && e.0 == f.0
        ensures e.1 == f.1
      {
        assert e in Entries(work, share, p.0) && f in Entries(work, share, p.0);
      }
    }
  }

  method ListFailures(refused: seq<Failure>, broken: seq<Pair>) returns (failures: seq<Failure>)
    ensures failures == [] <==> refused == [] && broken == []
    ensures forall f :: f in refused ==> f in failures
    ensures forall p :: p in broken ==> PairFailed(p) in failures
  {
    failures := refused;
    for i := 0 to |broken|
      invariant |failures| == |refused| + i
      invariant forall f :: f in refused ==> f in failures
      invariant forall k :: 0 <= k < i ==> PairFailed(broken[k]) in failures
    {
      failures := failures + [PairFailed(broken[i])];
    }
  }

  lemma AllDone(order: seq<Pair>, work: set<Pair>, granted: Account -> bool)
    requires Completes(order, work, granted) && forall p :: p in work ==> granted(p.0)
    ensures Done(order, |order|) == work
  {
    assert order[..|order|] == order;
  }

  /** A fold without failures is owed as it stands. */
  lemma FoldIsOwed(contents: map<Account, map<string, string>>, order: seq<Pair>,
                   work: set<Pair>, granted: Account -> bool, fetch: Pair -> Fetch, share: Pair -> set<Item>)
    requires Completes(order, work, granted) && forall p :: p in work ==> granted(p.0)
    requires Folded(AsSets(contents), false, Done(order, |order|), work, granted, fetch, share)
    ensures Owed(work, granted, fetch, share, Success(contents))
  {
    AllDone(order, work, granted);
    forall a | a in contents
      ensures Functional(AsSets(contents)[a])
    {
      NamespacesAreFunctional(contents[a]);
    }
    FoldedIsCollected(AsSets(contents), work, granted, fetch, share);
  }

  /**
   Collect every pair. Whatever the order the fetches complete in, the call succeeds if and only
   if every role was granted, every fetch came back, and no two raw or flattened entries of one
   account share a name with different values; and then it returns each account the union of its
   regions' entries. A failure lists every refused account and every broken fetch.
   */
  method CollectAccountExports(work: set<Pair>, granted: Account -> bool, fetch: Pair -> Fetch, json: Json, order: seq<Pair>)
    returns (r: Collected)
    requires Completes(order, work, granted)
    ensures Owed(work, granted, fetch, Share(fetch, json), r)
    ensures r.Failure? ==> forall p :: p in work && !granted(p.0) ==> AssumeFailed(p.0) in r.error
    ensures r.Failure? ==> forall p :: p in work && granted(p.0) && fetch(p).Broken? ==> PairFailed(p) in r.error
  {
    var refused := AssumeRoles(set p | p in work :: p.0, granted);
    assert refused != [] ==> refused[0] in refused;
    var collector, broken := MergeAll(fetch, json, order, refused != [], work, granted);
    var failures := ListFailures(refused, broken);
    if failures != [] {
      return Failure(failures);
    }
    forall p | p in work
      ensures granted(p.0)
    {
      assert AssumeFailed(p.0) !in refused;
    }
    FoldIsOwed(collector.Contents(), order, work, granted, fetch, Share(fetch, json));
    return Success(map a | a in collector.perAccount :: collector.perAccount[a].entries);
  }

  // ---- what the namespaces hold --------------------------------------------------------------------

  /** `name` is the part of the path after its last slash, or all of a path without one. */
  predicate NamesPath(name: string, path: string) {
    '/' !in name && (path == name || (|name| < |path| && path[|path| - |name| - 1..] == "/" + name))
  }

  /** A CloudFormation export, or an SSM parameter under the last part of its path. */
  predicate IsListed(l: Fetch, name: string, value: string)
    requires l.Listing?
  {
    (name, value) in l.cfn || exists i :: 0 <= i < |l.ssm| && l.ssm[i].1 == value && NamesPath(name, l.ssm[i].0)
  }

  /** Part `k` of the JSON object that `whole` parses to, under a name of its own. */
  predicate IsPart(parent: string, whole: string, json: Json, k: nat, name: string, value: string) {
    json(whole).Some? && k < |json(whole).value| && name == parent + "-" + json(whole).value[k].0 && value == json(whole).value[k].1
  }

  /** What one pair exports: what it lists, and the parts of every JSON object it lists. */
  ghost predicate IsExported(l: Fetch, json: Json, name: string, value: string) {
    && l.Listing?
    && (IsListed(l, name, value)
        || exists parent, whole, k: nat :: IsListed(l, parent, whole) && IsPart(parent, whole, json, k, name, value))
  }

  lemma SegmentIsNamed(path: string, name: string)
    ensures LastSegment(path) == name <==> NamesPath(name, path)
  {
    var last := LastSegment(path);
    SegmentNames(path, last);
    if NamesPath(name, path) {
      NamedIsSegment(path, last, name);
    }
  }

  lemma SegmentNames(path: string, last: string)
    requires '/' !in last && |last| <= |path| && path[|path| - |last|..] == last
    requires |last| < |path| ==> path[|path| - |last| - 1] == '/'
    ensures NamesPath(last, path)
  {
    if |last| < |path| {
      var tail := path[|path| - |last| - 1..];
      assert tail[0] == '/' && tail[1..] == last;
      assert tail == [tail[0]] + tail[1..];
    } else {
      assert path[0..] == path;
    }
  }

  lemma NamedIsSegment(path: string, last: string, name: string)
    requires '/' !in last && |last| <= |path| && path[|path| - |last|..] == last
    requires |last| < |path| ==> path[|path| - |last| - 1] == '/'
    requires NamesPath(name, path)
    ensures last == name
  {
    if |name| < |path| {
      TailOfSegment(path, name);
      SameTail(path, last, name);
    } else {
      WholeTail(path, last);
    }
  }

  lemma TailOfSegment(path: string, name: string)
    requires |name| < |path| && path[|path| - |name| - 1..] == "/" + name
    ensures path[|path| - |name|..] == name && path[|path| - |name| - 1] == '/'
  {
    var tail := path[|path| - |name| - 1..];
    assert tail[0] == '/' && tail[1..] == name;
  }

  lemma NoSlashAfter(path: string, tail: string)
    requires '/' !in tail && |tail| <= |path| && path[|path| - |tail|..] == tail
    ensures forall i :: |path| - |tail| <= i < |path| ==> path[i] != '/'
  {
    forall i | |path| - |tail| <= i < |path|
      ensures path[i] != '/'
    {
      assert path[i] == tail[i - (|path| - |tail|)];
    }
  }

  lemma SameTail(path: string, a: string, b: string)
    requires '/' !in a && '/' !in b && |a| <= |path| && |b| < |path|
    requires path[|path| - |a|..] == a && path[|path| - |b|..] == b && path[|path| - |b| - 1] == '/'
    requires |a| < |path| ==> path[|path| - |a| - 1] == '/'
    ensures a == b
  {
    NoSlashAfter(path, a);
    NoSlashAfter(path, b);
  }

  lemma WholeTail(path: string, a: string)
    requires '/' !in path && |a| <= |path| && path[|path| - |a|..] == a
    requires |a| < |path| ==> path[|path| - |a| - 1] == '/'
    ensures a == path
  {
  }

  lemma RawIsListed(l: Fetch, name: string, value: string)
    requires l.Listing?
    ensures (name, value) in Raw(l) <==> IsListed(l, name, value)
  {
    var renamed := Renamed(l.ssm);
    if (name, value) in Elements(renamed) {
      var i :| 0 <= i < |renamed| && renamed[i] == (name, value);
      SegmentIsNamed(l.ssm[i].0, name);
    }
    if i :| 0 <= i < |l.ssm| && l.ssm[i].1 == value && NamesPath(name, l.ssm[i].0) {
      SegmentIsNamed(l.ssm[i].0, name);
      assert renamed[i] == (name, value);
    }
  }

  lemma PartIsSynthetic(parent: string, whole: string, json: Json, name: string, value: string)
    ensures (name, value) in Elements(Synthetic((parent, whole), json)) <==> exists k: nat :: IsPart(parent, whole, json, k, name, value)
  {
    var subs := Synthetic((parent, whole), json);
    if (name, value) in Elements(subs) {
      var k: nat :| k < |subs| && subs[k] == (name, value);
      assert IsPart(parent, whole, json, k, name, value);
    }
    if k: nat :| IsPart(parent, whole, json, k, name, value) {
      assert subs[k] == (name, value);
    }
  }

  lemma FlatIsRawOrPart(raw: set<Item>, json: Json, name: string, value: string)
    ensures (name, value) in Flat(raw, json)
       <==> (name, value) in raw || exists e :: e in raw && (name, value) in Elements(Synthetic(e, json))
  {
    if (name, value) in raw {
      assert (name, value) in Expanded((name, value), json);
    }
    if e :| e in raw && (name, value) in Elements(Synthetic(e, json)) {
      assert (name, value) in Expanded(e, json);
    }
  }

  lemma FlatIsExported(l: Fetch, json: Json, name: string, value: string)
    requires l.Listing?
    ensures (name, value) in Flat(Raw(l), json) <==> IsExported(l, json, name, value)
  {
    FlatIsRawOrPart(Raw(l), json, name, value);
    RawIsListed(l, name, value);
    if e :| e in Raw(l) && (name, value) in Elements(Synthetic(e, json)) {
      RawIsListed(l, e.0, e.1);
      PartIsSynthetic(e.0, e.1, json, name, value);
    }
    if parent, whole, k: nat :| IsListed(l, parent, whole) && IsPart(parent, whole, json, k, name, value) {
      RawIsListed(l, parent, whole);
      PartIsSynthetic(parent, whole, json, name, value);
    }
  }

  /**
   What a successful collection returns for an account: a name stands for a value exactly if one of the
   account's regions exports it so - as a CloudFormation export, as an SSM parameter under the last
   part of its path, or as a part of a JSON object among those, under both their names.
   */
  lemma NamespacesHoldTheExports(work: set<Pair>, granted: Account -> bool, fetch: Pair -> Fetch, json: Json, r: Collected,
                                 a: Account, name: string, value: string)
    requires Owed(work, granted, fetch, Share(fetch, json), r) && r.Success? && a in r.value
    ensures name in r.value[a] && r.value[a][name] == value
       <==> exists p :: p in work && p.0 == a && IsExported(fetch(p), json, name, value)
  {
    OfHolds(r.value[a], (name, value));
    assert Of(r.value[a]) == Entries(work, Share(fetch, json), a);
    forall p | p in work
      ensures (name, value) in Share(fetch, json)(p) <==> IsExported(fetch(p), json, name, value)
    {
      if fetch(p).Listing? {
        FlatIsExported(fetch(p), json, name, value);
      }
    }
    if p :| p in work && p.0 == a && IsExported(fetch(p), json, name, value) {
      assert (name, value) in Share(fetch, json)(p);
    }
  }
}
