/** Sequences of sequences, and positions picked out of a sequence. */
module Sequences {

  function Flat<T>(parts: seq<seq<T>>): seq<T> {
    if parts == [] then [] else Flat(parts[..|parts| - 1]) + parts[|parts| - 1]
  }

  lemma FlatOfMore<T>(parts: seq<seq<T>>, part: seq<T>)
    ensures Flat(parts + [part]) == Flat(parts) + part
  {
    assert (parts + [part])[..|parts|] == parts;
  }

  predicate Ascending(idx: seq<nat>, n: nat) {
    && (forall k :: 0 <= k < |idx| ==> idx[k] < n)
    && (forall j, k :: 0 <= j < k < |idx| ==> idx[j] < idx[k])
  }

  /** `idx` lists, in ascending order, exactly the positions below `n` that are chosen. */
  ghost predicate Lists(idx: seq<nat>, n: nat, chosen: nat -> bool) {
    && Ascending(idx, n)
    && (forall k :: 0 <= k < |idx| ==> chosen(idx[k]))
    && (forall i: nat :: i < n && chosen(i) ==> i in idx)
  }

  /** The elements at those positions, in order. */
  function Picked<T>(xs: seq<T>, idx: seq<nat>): (r: seq<T>)
    requires forall k :: 0 <= k < |idx| ==> idx[k] < |xs|
    ensures |r| == |idx| && forall k :: 0 <= k < |idx| ==> r[k] == xs[idx[k]]
  {
    seq(|idx|, k requires 0 <= k < |idx| => xs[idx[k]])
  }

  /** Two selections that agree below `n` list the same positions. */
  lemma ListsGrow(idx: seq<nat>, n: nat, chosen: nat -> bool, other: nat -> bool)
    requires Lists(idx, n, chosen) && forall i: nat :: i < n ==> (chosen(i) <==> other(i))
    ensures Lists(if other(n) then idx + [n] else idx, n + 1, other)
  {
  }

  /** `part` is what `xs` holds at the chosen positions, in order. */
  ghost predicate Selects<T>(part: seq<T>, xs: seq<T>, idx: seq<nat>, chosen: nat -> bool) {
    Lists(idx, |xs|, chosen) && part == Picked(xs, idx)
  }

  lemma PickedStays<T>(xs: seq<T>, idx: seq<nat>, x: T)
    requires Ascending(idx, |xs|)
    ensures Picked(xs + [x], idx) == Picked(xs, idx)
  {
  }

  lemma PickedGrows<T>(xs: seq<T>, idx: seq<nat>, x: T)
    requires Ascending(idx, |xs|)
    ensures Picked(xs + [x], idx + [|xs|]) == Picked(xs, idx) + [x]
  {
    var more := Picked(xs + [x], idx + [|xs|]);
    assert |more| == |idx| + 1 && more[|idx|] == x;
    assert forall k :: 0 <= k < |idx| ==> more[k] == xs[idx[k]];
  }

  lemma SelectsMore<T>(part: seq<T>, xs: seq<T>, idx: seq<nat>, chosen: nat -> bool, x: T, other: nat -> bool)
    requires Selects(part, xs, idx, chosen) && forall i: nat :: i < |xs| ==> (chosen(i) <==> other(i))
    ensures other(|xs|) ==> Selects(part + [x], xs + [x], idx + [|xs|], other)
    ensures !other(|xs|) ==> Selects(part, xs + [x], idx, other)
  {
    ListsGrow(idx, |xs|, chosen, other);
    if other(|xs|) {
      PickedGrows(xs, idx, x);
    } else {
      PickedStays(xs, idx, x);
    }
  }

  lemma ListsSame(idx: seq<nat>, n: nat, chosen: nat -> bool, other: nat -> bool)
    requires Lists(idx, n, chosen) && forall i: nat :: i < n ==> (chosen(i) <==> other(i))
    ensures Lists(idx, n, other)
  {
  }

  lemma {:induction false} AscendingIsBounded(idx: seq<nat>, n: nat)
    requires Ascending(idx, n)
    ensures |idx| <= n
    decreases |idx|
  {
    if idx != [] {
      AscendingIsBounded(idx[..|idx| - 1], idx[|idx| - 1]);
    }
  }

  lemma {:induction false} FullIsAll(idx: seq<nat>, n: nat, i: nat)
    requires Ascending(idx, n) && |idx| == n && i < n
    ensures i in idx
    decreases n
  {
    var front, last := idx[..n - 1], idx[n - 1];
    AscendingIsBounded(front, last);
    if i == n - 1 {
      assert idx[n - 1] == i;
    } else {
      FullIsAll(front, n - 1, i);
    }
  }

  lemma LastIsGreatest(idx: seq<nat>, n: nat, x: nat)
    requires Ascending(idx, n) && x in idx
    ensures idx != [] && x <= idx[|idx| - 1]
  {
    var k :| 0 <= k < |idx| && idx[k] == x;
    assert k == |idx| - 1 || idx[k] < idx[|idx| - 1];
  }

  lemma {:induction false} AllIsFull(idx: seq<nat>, n: nat)
    requires Ascending(idx, n) && forall i: nat :: i < n ==> i in idx
    ensures |idx| == n
    decreases n
  {
    AscendingIsBounded(idx, n);
    if n > 0 {
      var last: nat := n - 1;
      LastIsGreatest(idx, n, last);
      var front := idx[..|idx| - 1];
      forall i: nat | i < n - 1
        ensures i in front
      {
        assert i in idx;
        var j :| 0 <= j < |idx| && idx[j] == i;
        assert front[j] == i;
      }
      AllIsFull(front, n - 1);
    }
  }

  /** Every position is listed exactly if every position is chosen. */
  lemma AllListed(idx: seq<nat>, n: nat, chosen: nat -> bool)
    requires Lists(idx, n, chosen)
    ensures |idx| <= n
    ensures |idx| == n <==> forall i: nat :: i < n ==> chosen(i)
  {
    AscendingIsBounded(idx, n);
    if |idx| == n {
      forall i: nat | i < n
        ensures chosen(i)
      {
        FullIsAll(idx, n, i);
      }
    }
    if forall i: nat :: i < n ==> chosen(i) {
      AllIsFull(idx, n);
    }
  }
}
