/** The no-progress analysis of formal/explore.py: elimination of nodes whose
    remaining non-progress in-degree is zero. */
module Elimination {

  type Graph = seq<seq<(nat, bool)>>

  predicate Closed(g: Graph) {
    forall i, k :: 0 <= i < |g| && 0 <= k < |g[i]| ==> g[i][k].0 < |g|
  }

  /** Number of non-progress entries of one edge list that lead to j. */
  function Idle(es: seq<(nat, bool)>, j: nat): nat {
    if es == [] then 0 else (if es[0].0 == j && !es[0].1 then 1 else 0) + Idle(es[1..], j)
  }

  /** Non-progress edges into j from the first `upTo` nodes that are not gone. */
  function Incoming(g: Graph, gone: set<nat>, j: nat, upTo: nat): nat
    requires upTo <= |g|
  {
    if upTo == 0 then 0
    else Incoming(g, gone, j, upTo - 1) + if upTo - 1 in gone then 0 else Idle(g[upTo - 1], j)
  }

  ghost predicate IdleArc(g: Graph, a: nat, b: nat) { a < |g| && b < |g| && Idle(g[a], b) > 0 }

  ghost predicate IdleRing(g: Graph, c: seq<nat>) {
    |c| >= 2 && c[0] == c[|c| - 1] && forall i :: 0 <= i < |c| - 1 ==> IdleArc(g, c[i], c[i + 1])
  }

  lemma {:induction false} IdleAt(es: seq<(nat, bool)>, j: nat)
    ensures Idle(es, j) > 0 <==> exists k :: 0 <= k < |es| && es[k] == (j, false)
  {
    if es != [] {
      IdleAt(es[1..], j);
      if k :| 0 <= k < |es| && es[k] == (j, false) { if k > 0 { assert es[1..][k - 1] == (j, false); } }
      if k :| 0 <= k < |es[1..]| && es[1..][k] == (j, false) { assert es[k + 1] == (j, false); }
      if Idle(es, j) > 0 && Idle(es[1..], j) == 0 { assert es[0] == (j, false); }
    }
  }

  lemma {:induction false} IncomingGone(g: Graph, gone: set<nat>, i: nat, j: nat, upTo: nat)
    requires upTo <= |g| && i !in gone
    ensures Incoming(g, gone, j, upTo) == Incoming(g, gone + {i}, j, upTo) + if i < upTo then Idle(g[i], j) else 0
  {
    if upTo > 0 { IncomingGone(g, gone, i, j, upTo - 1); }
  }

  lemma {:induction false} IncomingFrom(g: Graph, gone: set<nat>, a: nat, j: nat, upTo: nat)
    requires a < upTo <= |g| && a !in gone && Idle(g[a], j) > 0
    ensures Incoming(g, gone, j, upTo) > 0
  {
    if a < upTo - 1 { IncomingFrom(g, gone, a, j, upTo - 1); }
  }

  lemma {:induction false} IncomingSource(g: Graph, gone: set<nat>, j: nat, upTo: nat) returns (a: nat)
    requires upTo <= |g| && Incoming(g, gone, j, upTo) > 0
    ensures a < upTo && a !in gone && Idle(g[a], j) > 0
  {
    if upTo - 1 !in gone && Idle(g[upTo - 1], j) > 0 {
      a := upTo - 1;
    } else {
      a := IncomingSource(g, gone, j, upTo - 1);
    }
  }

  // ------------------------------------------------------------------ elimination

  /** Removal order: every non-progress arc into a removed node comes from a node
      removed earlier. */
  ghost predicate Settled(g: Graph, gone: set<nat>, rank: map<nat, nat>) {
    && rank.Keys == gone
    && (forall v :: v in gone ==> v < |g| && rank[v] < |gone|)
    && (forall a, b :: b in gone && IdleArc(g, a, b) ==> a in gone && rank[a] < rank[b])
  }

  ghost predicate Frontier(gone: set<nat>, deg: seq<nat>, ready: seq<nat>) {
    && (forall x :: 0 <= x < |ready| ==> ready[x] < |deg| && ready[x] !in gone && deg[ready[x]] == 0)
    && (forall x, y :: 0 <= x < y < |ready| ==> ready[x] != ready[y])
    && (forall j :: 0 <= j < |deg| && j !in gone && deg[j] == 0 ==> j in ready)
  }

  ghost predicate Counted(g: Graph, gone: set<nat>, deg: seq<nat>) {
    |deg| == |g| && forall j :: 0 <= j < |g| ==> deg[j] == Incoming(g, gone, j, |g|)
  }

  method CountIncoming(g: Graph) returns (indegree: array<nat>)
    requires Closed(g)
    ensures fresh(indegree) && Counted(g, {}, indegree[..])
  {
    indegree := new nat[|g|](_ => 0);
    for i := 0 to |g|
      invariant forall j :: 0 <= j < |g| ==> indegree[j] == Incoming(g, {}, j, i)
    {
      for k := 0 to |g[i]|
        invariant forall j :: 0 <= j < |g| ==>
          indegree[j] + Idle(g[i][k..], j) == Incoming(g, {}, j, i) + Idle(g[i], j)
      {
        var (target, progress) := g[i][k];
        assert g[i][k..][1..] == g[i][k + 1..];
        if !progress { indegree[target] := indegree[target] + 1; }
      }
    }
  }

  /** Takes node i's non-progress edges away; nodes left without any become ready. */
  method Remove(g: Graph, indegree: array<nat>, ready: seq<nat>, i: nat, ghost gone: set<nat>,
                ghost rank: map<nat, nat>)
    returns (next: seq<nat>)
    requires Closed(g) && Settled(g, gone, rank) && Counted(g, gone, indegree[..])
    requires Frontier(gone, indegree[..], [i] + ready)
    modifies indegree
    ensures Counted(g, gone + {i}, indegree[..]) && Frontier(gone + {i}, indegree[..], next)
    ensures Settled(g, gone + {i}, rank[i := |gone|])
  {
    ghost var after := gone + {i};
    assert ([i] + ready)[0] == i;
    SettledGrows(g, gone, rank, indegree[..], i);
    forall j | 0 <= j < |g| ensures indegree[j] == Incoming(g, after, j, |g|) + Idle(g[i], j) {
      IncomingGone(g, gone, i, j, |g|);
    }
    next := ready;
    assert Frontier(after, indegree[..], next) by { FrontierDrops(gone, indegree[..], ready, i); }
    for k := 0 to |g[i]|
      invariant forall j :: 0 <= j < |g| ==> indegree[j] == Incoming(g, after, j, |g|) + Idle(g[i][k..], j)
      invariant Frontier(after, indegree[..], next)
    {
      next := DropEdge(g, indegree, next, i, k, gone, rank);
    }
  }

  /** One edge of node i is taken away. */
  method DropEdge(g: Graph, indegree: array<nat>, ready: seq<nat>, i: nat, k: nat, ghost gone: set<nat>,
                  ghost rank: map<nat, nat>)
    returns (next: seq<nat>)
    requires Closed(g) && Settled(g, gone, rank) && Settled(g, gone + {i}, rank[i := |gone|])
    requires indegree.Length == |g| && i < |g| && i !in gone && k < |g[i]|
    requires forall j :: 0 <= j < |g| ==> indegree[j] == Incoming(g, gone + {i}, j, |g|) + Idle(g[i][k..], j)
    requires Frontier(gone + {i}, indegree[..], ready)
    modifies indegree
    ensures forall j :: 0 <= j < |g| ==> indegree[j] == Incoming(g, gone + {i}, j, |g|) + Idle(g[i][k + 1..], j)
    ensures Frontier(gone + {i}, indegree[..], next)
  {
    var (j, progress) := g[i][k];
    assert g[i][k..][1..] == g[i][k + 1..];
    next := ready;
    if !progress {
      NotGone(g, gone, rank, indegree.Length, i, j, k);
      ghost var before := indegree[..];
      indegree[j] := indegree[j] - 1;
      assert indegree[..] == before[j := before[j] - 1];
      FrontierFalls(gone + {i}, before, ready, j);
      if indegree[j] == 0 { next := next + [j]; }
    }
  }

  lemma {:induction false} SettledGrows(g: Graph, gone: set<nat>, rank: map<nat, nat>, deg: seq<nat>, i: nat)
    requires Settled(g, gone, rank) && Counted(g, gone, deg) && i < |g| && i !in gone && deg[i] == 0
    ensures Settled(g, gone + {i}, rank[i := |gone|])
  {
    forall a | IdleArc(g, a, i) ensures a in gone {
      if a !in gone { IncomingFrom(g, gone, a, i, |g|); }
    }
  }

  lemma {:induction false} FrontierDrops(gone: set<nat>, deg: seq<nat>, ready: seq<nat>, i: nat)
    requires Frontier(gone, deg, [i] + ready)
    ensures Frontier(gone + {i}, deg, ready)
  {
    var all := [i] + ready;
    forall x | 0 <= x < |ready| ensures ready[x] < |deg| && ready[x] !in gone + {i} && deg[ready[x]] == 0 {
      assert all[x + 1] == ready[x] && all[0] == i;
    }
    forall x, y | 0 <= x < y < |ready| ensures ready[x] != ready[y] { assert all[x + 1] != all[y + 1]; }
    forall j | 0 <= j < |deg| && j !in gone + {i} && deg[j] == 0 ensures j in ready { assert j in all; }
  }

  lemma {:induction false} FrontierFalls(gone: set<nat>, deg: seq<nat>, ready: seq<nat>, j: nat)
    requires Frontier(gone, deg, ready) && j < |deg| && deg[j] > 0 && j !in gone
    ensures Frontier(gone, deg[j := deg[j] - 1], if deg[j] == 1 then ready + [j] else ready)
  {
    var less, more := deg[j := deg[j] - 1], ready + [j];
    assert forall x :: 0 <= x < |ready| ==> ready[x] != j;
    forall q | 0 <= q < |deg| && q !in gone && less[q] == 0 ensures q in if deg[j] == 1 then more else ready {
      if q == j { assert more[|ready|] == j; } else { assert q in ready; }
    }
  }

  lemma {:induction false} NotGone(g: Graph, gone: set<nat>, rank: map<nat, nat>, n: nat, i: nat, j: nat, k: nat)
    requires Closed(g) && Settled(g, gone, rank) && Settled(g, gone + {i}, rank[i := |gone|]) && n == |g|
    requires i < |g| && i !in gone && k < |g[i]| && g[i][k] == (j, false)
    ensures j < |g| && j !in gone + {i} && Idle(g[i][k..], j) > 0
  {
    IdleAt(g[i], j);
    assert IdleArc(g, i, j);
    assert g[i][k..][0] == (j, false);
  }

  method InitiallyReady(indegree: array<nat>) returns (ready: seq<nat>)
    ensures Frontier({}, indegree[..], ready)
  {
    ready := [];
    for i := 0 to indegree.Length
      invariant forall x :: 0 <= x < |ready| ==> ready[x] < i && indegree[ready[x]] == 0
      invariant forall x, y :: 0 <= x < y < |ready| ==> ready[x] != ready[y]
      invariant forall j :: 0 <= j < i && indegree[j] == 0 ==> j in ready
    {
      if indegree[i] == 0 {
        assert (ready + [i])[|ready|] == i;
        ready := ready + [i];
      }
    }
  }

  /** Kahn's elimination over the non-progress edges: nothing is left exactly when
      no directed cycle avoids progress edges. */
  method Eliminate(g: Graph) returns (residue: nat)
    requires Closed(g)
    ensures residue == 0 <==> forall c :: !IdleRing(g, c)
  {
    var indegree := CountIncoming(g);
    var ready := InitiallyReady(indegree);
    var removed := 0;
    ghost var gone: set<nat>, rank: map<nat, nat> := {}, map[];
    while ready != []
      invariant Settled(g, gone, rank) && Counted(g, gone, indegree[..]) && Frontier(gone, indegree[..], ready)
      invariant removed == |gone| <= |g|
      decreases |g| - removed
    {
      var i := ready[0];
      assert ready == [i] + ready[1..];
      ready := Remove(g, indegree, ready[1..], i, gone, rank);
      rank := rank[i := |gone|];
      gone := gone + {i};
      removed := removed + 1;
      BelowBound(gone, |g|);
    }
    residue := |g| - removed;
    if residue == 0 {
      AllBelow(gone, |g|);
      forall c ensures !IdleRing(g, c) { if IdleRing(g, c) { RankClimbs(g, gone, rank, c, |c| - 1); } }
    } else {
      ghost var v := LiveNode(gone, |g|);
      ghost var c := BackWalk(g, gone, indegree[..], [v]);
    }
  }

  lemma {:induction false} BelowBound(s: set<nat>, n: nat)
    requires forall v :: v in s ==> v < n
    ensures |s| <= n
  {
    if n > 0 {
      BelowBound(s - {n - 1}, n - 1);
    } else {
      assert s == {};
    }
  }

  lemma {:induction false} AllBelow(s: set<nat>, n: nat)
    requires (forall v :: v in s ==> v < n) && |s| == n
    ensures forall v :: 0 <= v < n ==> v in s
  {
    forall v | 0 <= v < n ensures v in s {
      if v !in s {
        BelowBound(s + {v}, n);
      }
    }
  }

  lemma {:induction false} LiveNode(s: set<nat>, n: nat) returns (v: nat)
    requires (forall u :: u in s ==> u < n) && |s| < n
    ensures v < n && v !in s
  {
    if n - 1 !in s { v := n - 1; } else { v := LiveNode(s - {n - 1}, n - 1); }
  }

  lemma {:induction false} RankClimbs(g: Graph, gone: set<nat>, rank: map<nat, nat>, c: seq<nat>, i: nat)
    requires Settled(g, gone, rank) && (forall v :: 0 <= v < |g| ==> v in gone)
    requires |c| >= 2 && i < |c| && forall q :: 0 <= q < |c| - 1 ==> IdleArc(g, c[q], c[q + 1])
    ensures c[0] in gone && c[i] in gone && rank[c[0]] + i <= rank[c[i]]
  {
    if i == 0 {
      assert IdleArc(g, c[0], c[1]);
    } else {
      RankClimbs(g, gone, rank, c, i - 1);
      assert IdleArc(g, c[i - 1], c[i]);
    }
  }

  /** Walking back over live nodes, each with a live source, must close a ring. */
  lemma {:induction false} BackWalk(g: Graph, gone: set<nat>, deg: seq<nat>, w: seq<nat>) returns (c: seq<nat>)
    requires Counted(g, gone, deg) && Frontier(gone, deg, [])
    requires |w| >= 1 && (forall i :: 0 <= i < |w| ==> w[i] < |g| && w[i] !in gone)
    requires forall i, j :: 0 <= i < j < |w| ==> w[i] != w[j]
    requires forall i :: 0 <= i < |w| - 1 ==> IdleArc(g, w[i], w[i + 1])
    ensures IdleRing(g, c)
    decreases |g| - |w|
  {
    var u := IncomingSource(g, gone, w[0], |g|);
    var longer := [u] + w;
    assert forall i :: 0 <= i < |longer| - 1 ==> IdleArc(g, longer[i], longer[i + 1]);
    if u in w {
      var k :| 0 <= k < |w| && w[k] == u;
      c := longer[..k + 2];
      assert c[|c| - 1] == w[k];
    } else {
      DistinctBound(longer, |g|);
      c := BackWalk(g, gone, deg, longer);
    }
  }

  function Members(w: seq<nat>): set<nat> { set v | v in w }

  lemma {:induction false} DistinctBound(w: seq<nat>, n: nat)
    requires (forall i :: 0 <= i < |w| ==> w[i] < n) && forall i, j :: 0 <= i < j < |w| ==> w[i] != w[j]
    ensures |w| <= n
  {
    DistinctSize(w);
    BelowBound(Members(w), n);
  }

  lemma {:induction false} DistinctSize(w: seq<nat>)
    requires forall i, j :: 0 <= i < j < |w| ==> w[i] != w[j]
    ensures |Members(w)| == |w|
  {
    if w != [] {
      DistinctSize(w[1..]);
      assert w[0] !in Members(w[1..]);
      assert Members(w) == Members(w[1..]) + {w[0]};
    }
  }
}
