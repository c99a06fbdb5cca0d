/** closure() of formal/handoff.py: transitive closure by Warshall's loops over one
    row of reachable events per event. */
module Closure {

  type Edges = set<(nat, nat)>

  ghost predicate Walk(e: Edges, v: seq<nat>) {
    |v| >= 2 && forall i :: 0 <= i < |v| - 1 ==> (v[i], v[i + 1]) in e
  }

  /** All interior vertices are below k. */
  ghost predicate Inside(v: seq<nat>, k: nat) {
    forall i :: 0 < i < |v| - 1 ==> v[i] < k
  }

  ghost predicate Via(e: Edges, k: nat, a: nat, b: nat) {
    exists v :: Walk(e, v) && Inside(v, k) && v[0] == a && v[|v| - 1] == b
  }

  ghost predicate Reachable(e: Edges, a: nat, b: nat) {
    exists v :: Walk(e, v) && v[0] == a && v[|v| - 1] == b
  }

  lemma {:induction false} ViaEdge(e: Edges, k: nat, a: nat, b: nat)
    requires (a, b) in e
    ensures Via(e, k, a, b)
  {
    var v := [a, b];
    assert Walk(e, v) && Inside(v, k) && v[|v| - 1] == b;
  }

  lemma {:induction false} ViaNone(e: Edges, a: nat, b: nat)
    ensures Via(e, 0, a, b) <==> (a, b) in e
  {
    if Via(e, 0, a, b) {
      var v :| Walk(e, v) && Inside(v, 0) && v[0] == a && v[|v| - 1] == b;
      assert (v[0], v[1]) in e;
      assert |v| == 2;
    }
    if (a, b) in e { ViaEdge(e, 0, a, b); }
  }

  lemma {:induction false} ViaCompose(e: Edges, k: nat, a: nat, x: nat, b: nat, top: nat)
    requires Via(e, k, a, x) && Via(e, k, x, b) && k <= top && x < top
    ensures Via(e, top, a, b)
  {
    var v :| Walk(e, v) && Inside(v, k) && v[0] == a && v[|v| - 1] == x;
    var u :| Walk(e, u) && Inside(u, k) && u[0] == x && u[|u| - 1] == b;
    var r := v + u[1..];
    forall i | 0 <= i < |r| - 1 ensures (r[i], r[i + 1]) in e {
      if i >= |v| - 1 { assert (u[i - (|v| - 1)], u[i - (|v| - 1) + 1]) in e; }
    }
    assert Inside(r, top);
    assert r[|r| - 1] == b;
  }

  /** A walk whose interior is at most k either avoids k or splits at it. */
  lemma {:induction false} WalkSplits(e: Edges, k: nat, v: seq<nat>)
    requires Walk(e, v) && Inside(v, k + 1)
    ensures Via(e, k, v[0], v[|v| - 1]) || (Via(e, k, v[0], k) && Via(e, k, k, v[|v| - 1]))
    decreases |v|
  {
    ViaEdge(e, k, v[0], v[1]);
    if |v| > 2 {
      var u := v[1..];
      assert Walk(e, u) && Inside(u, k + 1) by {
        forall i | 0 <= i < |u| - 1 ensures (u[i], u[i + 1]) in e { assert (v[i + 1], v[i + 2]) in e; }
      }
      WalkSplits(e, k, u);
      var x, z := v[1], v[|v| - 1];
      if x < k {
        if Via(e, k, x, z) { ViaCompose(e, k, v[0], x, z, k); } else { ViaCompose(e, k, v[0], x, k, k); }
      }
    }
  }

  lemma {:induction false} ViaStep(e: Edges, k: nat, a: nat, b: nat)
    ensures Via(e, k + 1, a, b) <==> Via(e, k, a, b) || (Via(e, k, a, k) && Via(e, k, k, b))
  {
    if Via(e, k + 1, a, b) {
      var v :| Walk(e, v) && Inside(v, k + 1) && v[0] == a && v[|v| - 1] == b;
      WalkSplits(e, k, v);
    }
    if Via(e, k, a, b) {
      var v :| Walk(e, v) && Inside(v, k) && v[0] == a && v[|v| - 1] == b;
      assert Inside(v, k + 1);
    }
    if Via(e, k, a, k) && Via(e, k, k, b) { ViaCompose(e, k, a, k, b, k + 1); }
  }

  ghost predicate RowIs(e: Edges, count: nat, k: nat, a: nat, row: set<nat>) {
    forall b: nat :: b in row <==> b < count && Via(e, k, a, b)
  }

  lemma {:induction false} RowStep(e: Edges, count: nat, k: nat, a: nat, row: set<nat>, pivot: set<nat>)
    requires k < count && RowIs(e, count, k, a, row) && RowIs(e, count, k, k, pivot)
    ensures RowIs(e, count, k + 1, a, if k in row then row + pivot else row)
  {
    var next := if k in row then row + pivot else row;
    forall b: nat ensures b in next <==> b < count && Via(e, k + 1, a, b) {
      ViaStep(e, k, a, b);
    }
  }

  method TransitiveClosure(count: nat, edges: Edges) returns (reach: array<set<nat>>)
    requires forall a, b :: (a, b) in edges ==> a < count && b < count
    ensures reach.Length == count
    ensures forall a: nat, b: nat :: a < count && b < count ==> (b in reach[a] <==> Reachable(edges, a, b))
  {
    reach := new set<nat>[count](i => {});
    for i := 0 to count
      invariant forall a :: 0 <= a < i ==> RowIs(edges, count, 0, a, reach[a])
    {
      reach[i] := set b: nat | b < count && (i, b) in edges;
      forall b: nat ensures b in reach[i] <==> b < count && Via(edges, 0, i, b) { ViaNone(edges, i, b); }
    }
    for k := 0 to count
      invariant forall a :: 0 <= a < count ==> RowIs(edges, count, k, a, reach[a])
    {
      var row := reach[k];
      for i := 0 to count
        invariant forall a :: 0 <= a < i ==> RowIs(edges, count, k + 1, a, reach[a])
        invariant forall a :: i <= a < count ==> RowIs(edges, count, k, a, reach[a])
      {
        RowStep(edges, count, k, i, reach[i], row);
        if k in reach[i] { reach[i] := reach[i] + row; }
      }
    }
    forall a: nat, b: nat | a < count && b < count
      ensures b in reach[a] <==> Reachable(edges, a, b)
    {
      ViaAll(edges, count, a, b);
    }
  }

  lemma {:induction false} ViaAll(e: Edges, count: nat, a: nat, b: nat)
    requires forall x, y :: (x, y) in e ==> x < count && y < count
    ensures Via(e, count, a, b) <==> Reachable(e, a, b)
  {
    if Reachable(e, a, b) {
      var v :| Walk(e, v) && v[0] == a && v[|v| - 1] == b;
      forall i | 0 < i < |v| - 1 ensures v[i] < count { assert (v[i], v[i + 1]) in e; }
      assert Inside(v, count);
    }
  }
}
