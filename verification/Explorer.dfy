/** run() of formal/explore.py: breadth-first exploration of a finite transition
    system, then elimination of its no-progress edges.  The wall clock is a number
    of states the run has patience to expand.  */
module Explorer {
  import opened Elimination

  datatype Edge<S> = Edge(target: S, progress: bool, violation: bool)

  datatype Model<!S> = Model(initial: S, terminal: S -> bool, holds: S -> bool,
                             successors: S -> seq<Edge<S>>)

  datatype Verdict<S> =
    | Pass
    | FailWitness(path: seq<S>)
    | FailDeadlock(path: seq<S>)
    | FailProgressCycle
    | Incomplete(cap: nat)

  // ------------------------------------------------------------------ the meaning

  predicate Bad<S>(m: Model<S>, e: Edge<S>) { e.violation || !m.holds(e.target) }

  ghost predicate Follows<S>(m: Model<S>, a: S, b: S) {
    exists k :: 0 <= k < |m.successors(a)| && m.successors(a)[k].target == b
  }

  ghost predicate FollowsBadly<S>(m: Model<S>, a: S, b: S) {
    exists k :: 0 <= k < |m.successors(a)| && m.successors(a)[k].target == b && Bad(m, m.successors(a)[k])
  }

  ghost predicate FollowsIdly<S>(m: Model<S>, a: S, b: S) {
    exists k :: 0 <= k < |m.successors(a)| && m.successors(a)[k].target == b && !m.successors(a)[k].progress
  }

  ghost predicate IsPath<S>(m: Model<S>, p: seq<S>) {
    |p| >= 1 && p[0] == m.initial && forall i :: 0 <= i < |p| - 1 ==> Follows(m, p[i], p[i + 1])
  }

  ghost predicate Violates<S>(m: Model<S>, p: seq<S>) {
    IsPath(m, p) && |p| >= 2 && FollowsBadly(m, p[|p| - 2], p[|p| - 1])
  }

  ghost predicate Deadlocks<S>(m: Model<S>, p: seq<S>) {
    IsPath(m, p) && m.successors(p[|p| - 1]) == [] && !m.terminal(p[|p| - 1])
  }

  /** A reachable directed cycle without a progress edge. */
  ghost predicate IdleCycle<S>(m: Model<S>, p: seq<S>, cycle: seq<S>) {
    && IsPath(m, p) && |cycle| >= 2
    && cycle[0] == p[|p| - 1] && cycle[|cycle| - 1] == cycle[0]
    && forall i :: 0 <= i < |cycle| - 1 ==> FollowsIdly(m, cycle[i], cycle[i + 1])
  }

  /** What each verdict certifies. */
  ghost predicate Certifies<S(!new)>(m: Model<S>, v: Verdict<S>) {
    match v
    case Pass =>
      && (forall p :: !Violates(m, p))
      && (forall p :: !Deadlocks(m, p))
      && (forall p, c :: !IdleCycle(m, p, c))
    case FailWitness(w) => Violates(m, w) && forall p :: Violates(m, p) ==> |w| <= |p|
    case FailDeadlock(w) => Deadlocks(m, w) && forall p :: Deadlocks(m, p) ==> |w| <= |p|
    case FailProgressCycle =>
      && (forall p :: !Violates(m, p)) && (forall p :: !Deadlocks(m, p))
      && (exists p, c :: IdleCycle(m, p, c))
    case Incomplete(cap) => MoreThan(m, cap)
  }

  ghost predicate Reached<S(!new)>(m: Model<S>, s: S) {
    exists p :: IsPath(m, p) && p[|p| - 1] == s
  }

  ghost predicate Distinct<S>(q: seq<S>) { forall i, j :: 0 <= i < j < |q| ==> q[i] != q[j] }

  /** More than `cap` different states are reachable. */
  ghost predicate MoreThan<S(!new)>(m: Model<S>, cap: nat) {
    exists q: seq<S> :: |q| > cap && Distinct(q) && forall i :: 0 <= i < |q| ==> Reached(m, q[i])
  }

  // ----------------------------------------------------------- breadth-first search

  /** The tables of a search: `paths` is auxiliary, the path that the parent links
      spell out for each state. */
  datatype Tables<S> = Tables(seen: map<S, nat>, states: seq<S>, parents: seq<int>,
                              edges: seq<seq<(nat, bool)>>, paths: seq<seq<S>>)

  ghost predicate Indexed<S>(m: Model<S>, t: Tables<S>) {
    && |t.states| == |t.parents| == |t.edges| == |t.paths| >= 1
    && t.states[0] == m.initial && t.paths[0] == [m.initial] && t.parents[0] == -1
    && (forall i :: 0 <= i < |t.states| ==> t.states[i] in t.seen && t.seen[t.states[i]] == i)
    && (forall s :: s in t.seen ==> t.seen[s] < |t.states| && t.states[t.seen[s]] == s)
  }

  ghost predicate Linked<S>(m: Model<S>, t: Tables<S>)
    requires |t.states| == |t.parents| == |t.paths|
  {
    && (forall i :: 0 < i < |t.states| ==> ParentOk(t, i))
    && (forall i :: 0 <= i < |t.states| ==>
          IsPath(m, t.paths[i]) && t.paths[i][|t.paths[i]| - 1] == t.states[i])
    && (forall i, j :: 0 <= i <= j < |t.states| ==> |t.paths[i]| <= |t.paths[j]|)
  }

  ghost predicate ParentOk<S>(t: Tables<S>, i: nat)
    requires 0 < i < |t.states| == |t.parents| == |t.paths|
  {
    0 <= t.parents[i] < i && t.paths[i] == t.paths[t.parents[i]] + [t.states[i]]
  }

  /** Breadth first: no state lies more than one step deeper than state i. */
  ghost predicate Layered<S>(t: Tables<S>, i: nat) {
    i < |t.paths| && forall j :: 0 <= j < |t.paths| ==> |t.paths[j]| <= |t.paths[i]| + 1
  }

  /** The first `upTo` successors of state i have been entered and are sound. */
  ghost predicate Expanded<S>(m: Model<S>, t: Tables<S>, i: nat, upTo: nat)
    requires i < |t.states| == |t.edges| == |t.paths|
  {
    var succ := m.successors(t.states[i]);
    && upTo <= |succ| && |t.edges[i]| == upTo
    && forall k :: 0 <= k < upTo ==> EdgeOk(m, t, i, k)
  }

  ghost predicate EdgeOk<S>(m: Model<S>, t: Tables<S>, i: nat, k: nat)
    requires i < |t.states| == |t.edges| == |t.paths|
    requires k < |m.successors(t.states[i])| && k < |t.edges[i]|
  {
    var e := m.successors(t.states[i])[k];
    && !Bad(m, e)
    && e.target in t.seen
    && t.edges[i][k] == (t.seen[e.target], e.progress)
    && t.seen[e.target] < |t.paths| && |t.paths[t.seen[e.target]]| <= |t.paths[i]| + 1
  }

  ghost predicate Searched<S>(m: Model<S>, t: Tables<S>, done: nat) {
    && Indexed(m, t) && Linked(m, t) && done <= |t.states|
    && (forall i :: 0 <= i < done ==> Expanded(m, t, i, |m.successors(t.states[i])|))
    && (forall i :: 0 <= i < done ==> m.successors(t.states[i]) != [] || m.terminal(t.states[i]))
    && (forall i :: done < i < |t.states| ==> t.edges[i] == [])
  }

  /** Following any path through expanded states stays in the tables, no deeper
      than the path; so the first unexpanded state is a lower bound. */
  lemma {:induction false} PathInTables<S>(m: Model<S>, t: Tables<S>, done: nat, p: seq<S>, j: nat)
    requires Searched(m, t, done) && IsPath(m, p) && j < |p|
    requires done < |t.states| ==> j < |t.paths[done]| || j == 0
    ensures p[j] in t.seen && |t.paths[t.seen[p[j]]]| <= j + 1
    ensures t.seen[p[j]] < done || (done < |t.states| && |t.paths[done]| <= j + 1)
    decreases j
  {
    if j > 0 {
      PathInTables(m, t, done, p, j - 1);
      assert p[j - 1] in t.seen;
      var i := t.seen[p[j - 1]];
      assert Follows(m, p[j - 1], p[j]);
      var k :| 0 <= k < |m.successors(p[j - 1])| && m.successors(p[j - 1])[k].target == p[j];
      assert i < done;
      assert Expanded(m, t, i, |m.successors(t.states[i])|);
      assert EdgeOk(m, t, i, k);
    }
  }

  lemma {:induction false} SoundEdge<S>(m: Model<S>, t: Tables<S>, done: nat, i: nat, k: nat)
    requires Searched(m, t, done) && i < done && k < |m.successors(t.states[i])|
    ensures !Bad(m, m.successors(t.states[i])[k])
    ensures k < |t.edges[i]| && EdgeOk(m, t, i, k)
  {
    assert Expanded(m, t, i, |m.successors(t.states[i])|);
    assert EdgeOk(m, t, i, k);
  }

  /** Every violating path is at least one step longer than the path to the first
      unexpanded state; when all are expanded there is none. */
  lemma {:induction false} ViolationDepth<S>(m: Model<S>, t: Tables<S>, done: nat, p: seq<S>)
    requires Searched(m, t, done) && Violates(m, p)
    ensures done < |t.states| && |t.paths[done]| + 1 <= |p|
  {
    if done == |t.states| || |p| < |t.paths[done]| + 1 {
      var j := |p| - 2;
      PathInTables(m, t, done, p, j);
      var i := t.seen[p[j]];
      var succ := m.successors(p[j]);
      var k :| 0 <= k < |succ| && succ[k].target == p[j + 1] && Bad(m, succ[k]);
      if i < done { SoundEdge(m, t, done, i, k); }
    }
  }

  lemma {:induction false} DeadlockDepth<S>(m: Model<S>, t: Tables<S>, done: nat, p: seq<S>)
    requires Searched(m, t, done) && Deadlocks(m, p)
    ensures done < |t.states| && |t.paths[done]| <= |p|
  {
    if done == |t.states| || |p| < |t.paths[done]| {
      PathInTables(m, t, done, p, |p| - 1);
    }
  }

  /** Parent links read backwards, then reversed. */
  method Reconstruct<S>(m: Model<S>, t: Tables<S>, sid: nat) returns (path: seq<S>)
    requires Indexed(m, t) && Linked(m, t) && sid < |t.states|
    ensures path == t.paths[sid]
  {
    path := [];
    var cur := sid;
    while t.parents[cur] >= 0
      invariant 0 <= cur < |t.states| && t.paths[cur] + path == t.paths[sid]
      invariant cur > 0 ==> ParentOk(t, cur)
      decreases cur
    {
      path := [t.states[cur]] + path;
      cur := t.parents[cur];
    }
    path := [t.states[0]] + path;
  }

  /** Adds one edge of state sid, entering its target when it is new. */
  method Enter<S(==)>(m: Model<S>, t: Tables<S>, sid: nat, k: nat) returns (r: Tables<S>)
    requires Searched(m, t, sid) && sid < |t.states|
    requires k < |m.successors(t.states[sid])| && Expanded(m, t, sid, k)
    requires !Bad(m, m.successors(t.states[sid])[k])
    requires Layered(t, sid)
    ensures Searched(m, r, sid) && sid < |r.states| && r.states[sid] == t.states[sid]
    ensures Expanded(m, r, sid, k + 1)
    ensures Layered(r, sid)
    ensures |r.states| == |t.states| + if m.successors(t.states[sid])[k].target in t.seen then 0 else 1
  {
    var e := m.successors(t.states[sid])[k];
    r := t;
    if e.target !in r.seen {
      r := Entered(r, sid, e.target);
      EnterKeeps(m, t, r, sid, k);
    }
    ghost var mid := r;
    r := r.(edges := r.edges[sid := r.edges[sid] + [(r.seen[e.target], e.progress)]]);
    EdgeKeeps(m, mid, r, sid, k);
  }

  lemma {:induction false} PathExtends<S>(m: Model<S>, p: seq<S>, k: nat)
    requires IsPath(m, p) && k < |m.successors(p[|p| - 1])|
    ensures IsPath(m, p + [m.successors(p[|p| - 1])[k].target])
  {
    var q := p + [m.successors(p[|p| - 1])[k].target];
    forall i | 0 <= i < |q| - 1 ensures Follows(m, q[i], q[i + 1]) {
      if i < |p| - 1 { assert Follows(m, p[i], p[i + 1]); }
    }
  }

  lemma {:induction false} EnterKeepsLinks<S>(m: Model<S>, t: Tables<S>, r: Tables<S>, sid: nat, k: nat)
    requires Indexed(m, t) && Linked(m, t) && sid < |t.states|
    requires k < |m.successors(t.states[sid])|
    requires Layered(t, sid)
    requires var target := m.successors(t.states[sid])[k].target;
      && r.states == t.states + [target] && r.parents == t.parents + [sid]
      && r.paths == t.paths + [t.paths[sid] + [target]]
    ensures Linked(m, r)
  {
    PathExtends(m, t.paths[sid], k);
    forall i | 0 < i < |r.states| ensures ParentOk(r, i) {
      if i < |t.states| { assert ParentOk(t, i); }
    }
  }

  /** The tables after entering a new state. */
  function Entered<S>(t: Tables<S>, sid: nat, target: S): Tables<S>
    requires sid < |t.paths|
  {
    Tables(t.seen[target := |t.states|], t.states + [target], t.parents + [sid], t.edges + [[]],
           t.paths + [t.paths[sid] + [target]])
  }

  lemma {:induction false} EnterKeepsIndex<S>(m: Model<S>, t: Tables<S>, sid: nat, target: S)
    requires Indexed(m, t) && sid < |t.paths| && target !in t.seen
    ensures Indexed(m, Entered(t, sid, target))
  {
  }

  lemma {:induction false} EnterKeepsEdges<S>(m: Model<S>, t: Tables<S>, sid: nat, target: S, i: nat, n: nat)
    requires Indexed(m, t) && sid < |t.paths| && target !in t.seen && |t.paths| == |t.states|
    requires i < |t.states| == |t.edges| && Expanded(m, t, i, n)
    ensures Expanded(m, Entered(t, sid, target), i, n)
  {
    forall q | 0 <= q < n ensures EdgeOk(m, Entered(t, sid, target), i, q) { assert EdgeOk(m, t, i, q); }
  }

  lemma {:induction false} EnterKeepsSearch<S>(m: Model<S>, t: Tables<S>, r: Tables<S>, sid: nat, target: S)
    requires Searched(m, t, sid) && sid < |t.states| && target !in t.seen && r == Entered(t, sid, target)
    requires Indexed(m, r) && Linked(m, r)
    ensures Searched(m, r, sid)
  {
    forall i | 0 <= i < sid ensures Expanded(m, r, i, |m.successors(r.states[i])|) {
      EnterKeepsEdges(m, t, sid, target, i, |m.successors(t.states[i])|);
    }
  }

  lemma {:induction false} EnterKeeps<S>(m: Model<S>, t: Tables<S>, r: Tables<S>, sid: nat, k: nat)
    requires Searched(m, t, sid) && sid < |t.states|
    requires k < |m.successors(t.states[sid])| && Expanded(m, t, sid, k)
    requires Layered(t, sid)
    requires var target := m.successors(t.states[sid])[k].target;
      target !in t.seen && r == Entered(t, sid, target)
    ensures Searched(m, r, sid) && Expanded(m, r, sid, k)
    ensures Layered(r, sid)
  {
    var target := m.successors(t.states[sid])[k].target;
    EnterKeepsLinks(m, t, r, sid, k);
    EnterKeepsIndex(m, t, sid, target);
    EnterKeepsSearch(m, t, r, sid, target);
    EnterKeepsEdges(m, t, sid, target, sid, k);
  }

  lemma {:induction false} EdgeKeeps<S>(m: Model<S>, t: Tables<S>, r: Tables<S>, sid: nat, k: nat)
    requires Searched(m, t, sid) && sid < |t.states|
    requires k < |m.successors(t.states[sid])| && Expanded(m, t, sid, k)
    requires Layered(t, sid)
    requires var e := m.successors(t.states[sid])[k];
      && !Bad(m, e) && e.target in t.seen
      && r == t.(edges := t.edges[sid := t.edges[sid] + [(t.seen[e.target], e.progress)]])
    ensures Searched(m, r, sid) && Expanded(m, r, sid, k + 1)
  {
    forall i | 0 < i < |r.states| ensures ParentOk(r, i) { assert ParentOk(t, i); }
    forall i | 0 <= i < sid ensures Expanded(m, r, i, |m.successors(r.states[i])|) {
      assert Expanded(m, t, i, |m.successors(t.states[i])|);
      forall q | 0 <= q < |m.successors(r.states[i])| ensures EdgeOk(m, r, i, q) { assert EdgeOk(m, t, i, q); }
    }
    forall q | 0 <= q < k + 1 ensures EdgeOk(m, r, sid, q) {
      if q < k { assert EdgeOk(m, t, sid, q); }
    }
  }

  /** Each table entry is reachable, so a full table is more than its size. */
  lemma {:induction false} TablesReach<S(!new)>(m: Model<S>, t: Tables<S>, done: nat, i: nat)
    requires Searched(m, t, done) && i < |t.states|
    ensures Reached(m, t.states[i])
  {
    assert IsPath(m, t.paths[i]) && t.paths[i][|t.paths[i]| - 1] == t.states[i];
  }

  lemma {:induction false} TablesDistinct<S>(m: Model<S>, t: Tables<S>)
    requires Indexed(m, t)
    ensures Distinct(t.states)
  {
    forall i, j | 0 <= i < j < |t.states| ensures t.states[i] != t.states[j] {
      assert t.seen[t.states[i]] == i && t.seen[t.states[j]] == j;
    }
  }

  lemma {:induction false} WallBudget<S(!new)>(m: Model<S>, t: Tables<S>, done: nat)
    requires Searched(m, t, done) && done < |t.states|
    ensures MoreThan(m, done)
  {
    TablesDistinct(m, t);
    forall i | 0 <= i < |t.states| ensures Reached(m, t.states[i]) { TablesReach(m, t, done, i); }
  }

  lemma {:induction false} StateBudget<S(!new)>(m: Model<S>, t: Tables<S>, sid: nat, k: nat, cap: nat)
    requires Searched(m, t, sid) && sid < |t.states| && cap <= |t.states|
    requires k < |m.successors(t.states[sid])| && m.successors(t.states[sid])[k].target !in t.seen
    ensures MoreThan(m, cap)
  {
    TablesDistinct(m, t);
    var q := t.states + [m.successors(t.states[sid])[k].target];
    PathExtends(m, t.paths[sid], k);
    forall i | 0 <= i < |q| ensures Reached(m, q[i]) {
      if i < |t.states| {
        TablesReach(m, t, sid, i);
      } else {
        var p := t.paths[sid] + [q[i]];
        assert IsPath(m, p) && p[|p| - 1] == q[i];
      }
    }
    assert Distinct(q);
    assert |q| > cap;
  }

  lemma {:induction false} FoundViolation<S(!new)>(m: Model<S>, t: Tables<S>, sid: nat, k: nat)
    requires Searched(m, t, sid) && sid < |t.states|
    requires k < |m.successors(t.states[sid])| && Bad(m, m.successors(t.states[sid])[k])
    ensures Certifies(m, FailWitness(t.paths[sid] + [m.successors(t.states[sid])[k].target]))
  {
    PathExtends(m, t.paths[sid], k);
    forall p | Violates(m, p) ensures |t.paths[sid]| + 1 <= |p| { ViolationDepth(m, t, sid, p); }
  }

  lemma {:induction false} FoundDeadlock<S(!new)>(m: Model<S>, t: Tables<S>, sid: nat)
    requires Searched(m, t, sid) && sid < |t.states|
    requires m.successors(t.states[sid]) == [] && !m.terminal(t.states[sid])
    ensures Certifies(m, FailDeadlock(t.paths[sid]))
  {
    forall p | Deadlocks(m, p) ensures |t.paths[sid]| <= |p| { DeadlockDepth(m, t, sid, p); }
  }

  // -------------------------------------------------------------- cycles both ways

  lemma {:induction false} GraphClosed<S>(m: Model<S>, t: Tables<S>)
    requires Searched(m, t, |t.states|)
    ensures Closed(t.edges)
  {
    forall i, k | 0 <= i < |t.edges| && 0 <= k < |t.edges[i]| ensures t.edges[i][k].0 < |t.edges| {
      SoundEdge(m, t, |t.states|, i, k);
    }
  }

  lemma {:induction false} ArcOfStep<S>(m: Model<S>, t: Tables<S>, a: S, b: S)
    requires Searched(m, t, |t.states|) && a in t.seen && FollowsIdly(m, a, b)
    ensures b in t.seen && IdleArc(t.edges, t.seen[a], t.seen[b])
  {
    var k :| 0 <= k < |m.successors(a)| && m.successors(a)[k].target == b && !m.successors(a)[k].progress;
    SoundEdge(m, t, |t.states|, t.seen[a], k);
    IdleAt(t.edges[t.seen[a]], t.seen[b]);
  }

  lemma {:induction false} StepOfArc<S>(m: Model<S>, t: Tables<S>, i: nat, j: nat)
    requires Searched(m, t, |t.states|) && IdleArc(t.edges, i, j)
    ensures FollowsIdly(m, t.states[i], t.states[j])
  {
    IdleAt(t.edges[i], j);
    var k :| 0 <= k < |t.edges[i]| && t.edges[i][k] == (j, false);
    assert Expanded(m, t, i, |m.successors(t.states[i])|);
    SoundEdge(m, t, |t.states|, i, k);
    var e := m.successors(t.states[i])[k];
    assert e.target == t.states[j] && !e.progress;
  }

  lemma {:induction false} CycleInTables<S>(m: Model<S>, t: Tables<S>, p: seq<S>, cycle: seq<S>, i: nat)
    requires Searched(m, t, |t.states|) && IdleCycle(m, p, cycle) && i < |cycle|
    ensures cycle[i] in t.seen
  {
    if i == 0 {
      PathInTables(m, t, |t.states|, p, |p| - 1);
    } else {
      CycleInTables(m, t, p, cycle, i - 1);
      ArcOfStep(m, t, cycle[i - 1], cycle[i]);
    }
  }

  lemma {:induction false} RingOfCycle<S>(m: Model<S>, t: Tables<S>, p: seq<S>, cycle: seq<S>) returns (c: seq<nat>)
    requires Searched(m, t, |t.states|) && IdleCycle(m, p, cycle)
    ensures IdleRing(t.edges, c)
  {
    forall i | 0 <= i < |cycle| ensures cycle[i] in t.seen { CycleInTables(m, t, p, cycle, i); }
    c := seq(|cycle|, i requires 0 <= i < |cycle| => t.seen[cycle[i]]);
    forall i | 0 <= i < |c| - 1 ensures IdleArc(t.edges, c[i], c[i + 1]) {
      ArcOfStep(m, t, cycle[i], cycle[i + 1]);
    }
  }

  lemma {:induction false} CycleOfRing<S>(m: Model<S>, t: Tables<S>, c: seq<nat>) returns (cycle: seq<S>)
    requires Searched(m, t, |t.states|) && IdleRing(t.edges, c)
    ensures c[0] < |t.paths| && IdleCycle(m, t.paths[c[0]], cycle)
  {
    forall i | 0 <= i < |c| ensures c[i] < |t.states| {
      if i == 0 { assert IdleArc(t.edges, c[0], c[1]); } else { assert IdleArc(t.edges, c[i - 1], c[i]); }
    }
    cycle := seq(|c|, i requires 0 <= i < |c| => t.states[c[i]]);
    forall i | 0 <= i < |cycle| - 1 ensures FollowsIdly(m, cycle[i], cycle[i + 1]) {
      assert IdleArc(t.edges, c[i], c[i + 1]);
      StepOfArc(m, t, c[i], c[i + 1]);
    }
  }

  // ------------------------------------------------------------------------- run()

  /** No violation or deadlock is left once every state has been expanded. */
  lemma {:induction false} Exhausted<S(!new)>(m: Model<S>, t: Tables<S>)
    requires Searched(m, t, |t.states|)
    ensures forall p :: !Violates(m, p)
    ensures forall p :: !Deadlocks(m, p)
  {
    forall p ensures !Violates(m, p) { if Violates(m, p) { ViolationDepth(m, t, |t.states|, p); } }
    forall p ensures !Deadlocks(m, p) { if Deadlocks(m, p) { DeadlockDepth(m, t, |t.states|, p); } }
  }

  method NoProgress<S(!new)>(m: Model<S>, t: Tables<S>) returns (v: Verdict<S>)
    requires Searched(m, t, |t.states|)
    ensures Certifies(m, v) && (v.Pass? || v.FailProgressCycle?)
  {
    Exhausted(m, t);
    GraphClosed(m, t);
    var residue := Eliminate(t.edges);
    if residue != 0 {
      ghost var c :| IdleRing(t.edges, c);
      ghost var cycle := CycleOfRing(m, t, c);
      return FailProgressCycle;
    }
    forall p, cycle ensures !IdleCycle(m, p, cycle) {
      if IdleCycle(m, p, cycle) { var c := RingOfCycle(m, t, p, cycle); }
    }
    return Pass;
  }

  /** The queue holds exactly the states from `from` on, in order. */
  ghost predicate Waiting<S>(t: Tables<S>, from: nat, bfs: seq<nat>) {
    && |bfs| == |t.states| - from
    && forall i :: 0 <= i < |bfs| ==> bfs[i] == from + i
  }

  lemma {:induction false} StartTables<S>(m: Model<S>, t: Tables<S>)
    requires t.seen == map[m.initial := 0] && t.states == [m.initial] && t.parents == [-1]
    requires t.edges == [[]] && t.paths == [[m.initial]]
    ensures Searched(m, t, 0) && Layered(t, 0)
  {
    assert Indexed(m, t);
    assert IsPath(m, t.paths[0]);
    assert Linked(m, t);
    assert Layered(t, 0);
  }

  method Start<S(==)>(m: Model<S>) returns (t: Tables<S>, bfs: seq<nat>)
    ensures Searched(m, t, 0) && Layered(t, 0) && Waiting(t, 0, bfs)
    ensures |t.states| == 1 && t.edges[0] == []
  {
    t, bfs := Tables(map[m.initial := 0], [m.initial], [-1], [[]], [[m.initial]]), [0];
    StartTables(m, t);
  }

  lemma {:induction false} NextState<S>(m: Model<S>, t: Tables<S>, sid: nat)
    requires Searched(m, t, sid) && sid < |t.states| && Layered(t, sid)
    requires Expanded(m, t, sid, |m.successors(t.states[sid])|)
    requires m.successors(t.states[sid]) != [] || m.terminal(t.states[sid])
    ensures Searched(m, t, sid + 1)
    ensures sid + 1 < |t.states| ==> Layered(t, sid + 1) && t.edges[sid + 1] == []
  {
  }

  /** Expands state sid: either the search stops with a verdict, or the tables and
      the queue of unexpanded states have moved on by one. */
  method Expand<S(==, !new)>(m: Model<S>, t: Tables<S>, sid: nat, bfs: seq<nat>, maxStates: nat)
    returns (stop: bool, v: Verdict<S>, r: Tables<S>, rest: seq<nat>)
    requires Searched(m, t, sid) && sid < |t.states| && Layered(t, sid) && t.edges[sid] == []
    requires Waiting(t, sid + 1, bfs) && (|t.states| <= maxStates || |t.states| == 1)
    ensures stop ==> Certifies(m, v) && (v.Incomplete? ==> v.cap == maxStates)
    ensures !stop ==> Searched(m, r, sid + 1) && Waiting(r, sid + 1, rest)
    ensures !stop ==> (sid + 1 < |r.states| ==> Layered(r, sid + 1) && r.edges[sid + 1] == [])
    ensures !stop ==> |r.states| <= maxStates || |r.states| == 1
  {
    r, rest, stop, v := t, bfs, false, Pass;
    var succ := m.successors(t.states[sid]);
    for k := 0 to |succ|
      invariant Searched(m, r, sid) && sid < |r.states| && r.states[sid] == t.states[sid]
      invariant Expanded(m, r, sid, k) && Layered(r, sid) && Waiting(r, sid + 1, rest)
      invariant |r.states| <= maxStates || |r.states| == 1
    {
      if succ[k].violation || !m.holds(succ[k].target) {
        var path := Reconstruct(m, r, sid);
        FoundViolation(m, r, sid, k);
        return true, FailWitness(path + [succ[k].target]), r, rest;
      }
      if succ[k].target !in r.seen {
        if |r.states| >= maxStates {
          StateBudget(m, r, sid, k, maxStates);
          return true, Incomplete(maxStates), r, rest;
        }
        rest := rest + [|r.states|];
      }
      r := Enter(m, r, sid, k);
    }
    if succ == [] && !m.terminal(r.states[sid]) {
      FoundDeadlock(m, r, sid);
      var path := Reconstruct(m, r, sid);
      return true, FailDeadlock(path), r, rest;
    }
    NextState(m, r, sid);
  }

  method Run<S(==, !new)>(m: Model<S>, maxStates: nat, patience: nat) returns (v: Verdict<S>)
    ensures Certifies(m, v)
    ensures v.Incomplete? ==> v.cap == maxStates || v.cap == patience
  {
    var t, bfs := Start(m);
    var expanded := 0;
    while bfs != []
      invariant Searched(m, t, expanded) && Waiting(t, expanded, bfs)
      invariant expanded < |t.states| ==> Layered(t, expanded) && t.edges[expanded] == []
      invariant |t.states| <= maxStates || |t.states| == 1
      decreases maxStates + 1 - expanded
    {
      if expanded == patience {
        WallBudget(m, t, expanded);
        return Incomplete(patience);
      }
      var stop, verdict, r, rest := Expand(m, t, bfs[0], bfs[1..], maxStates);
      if stop { return verdict; }
      t, bfs, expanded := r, rest, expanded + 1;
    }
    v := NoProgress(m, t);
  }

  // ------------------------------------------------- what PASS does not establish

  /** Only targets of transitions are tested, never the initial state itself: PASS
      makes the invariant hold in every reachable state exactly when it already
      holds in the initial one. */
  lemma {:induction false} PassMeansInvariant<S(!new)>(m: Model<S>)
    requires Certifies(m, Pass)
    ensures (forall s :: Reached(m, s) ==> m.holds(s)) <==> m.holds(m.initial)
  {
    assert Reached(m, m.initial) by { assert IsPath(m, [m.initial]); }
    if m.holds(m.initial) {
      forall s | Reached(m, s) ensures m.holds(s) {
        var p :| IsPath(m, p) && p[|p| - 1] == s;
        if |p| >= 2 {
          assert !Violates(m, p);
          assert Follows(m, p[|p| - 2], p[|p| - 1]);
        }
      }
    }
  }

  function Untested(): Model<bool> { Model(false, s => true, s => false, s => []) }

  lemma {:induction false} NoSteps(a: bool, b: bool)
    ensures !FollowsBadly(Untested(), a, b) && !FollowsIdly(Untested(), a, b)
  {
  }

  /** A one-state model that breaks its invariant, for which PASS is the only
      conclusive verdict. */
  lemma {:induction false} InitialNeverTested()
    ensures Reached(Untested(), false) && !Untested().holds(false)
    ensures Certifies(Untested(), Pass)
    ensures forall v :: Certifies(Untested(), v) && !v.Incomplete? ==> v == Pass
  {
    var m := Untested();
    assert IsPath(m, [m.initial]);
    forall p ensures !Violates(m, p) && !Deadlocks(m, p) {
      if |p| >= 2 { NoSteps(p[|p| - 2], p[|p| - 1]); }
    }
    forall p, c ensures !IdleCycle(m, p, c) {
      if |c| >= 2 { NoSteps(c[0], c[1]); }
    }
  }
}
