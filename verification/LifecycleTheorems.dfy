/** Facts about every run of a generation's life. */
module LifecycleTheorems {
  import opened Lifecycle
  import opened LifecycleSafety

  ghost predicate Reachable(g: Generation) {
    exists start, acts :: Initial(start) && Run(start, acts) && g == After(start, acts)
  }

  lemma {:induction false} ReachableInv(g: Generation)
    requires Reachable(g)
    ensures Inv(g)
  {
    var start, acts :| Initial(start) && Run(start, acts) && g == After(start, acts);
    InitialHolds(start);
    RunKeeps(start, acts);
  }

  // ------------------------------------------------------------------- monotonicity

  /** What may only grow. */
  predicate Grows(g: Generation, h: Generation) {
    && |h.parts| == |g.parts|
    && State(g.gate) <= State(h.gate)
    && (g.failure != 0 ==> h.failure == g.failure)
    && (g.noMoreGrants ==> h.noMoreGrants)
    && (g.quarantined ==> h.quarantined)
    && forall i :: 0 <= i < |g.parts| ==> PartGrows(g.parts[i], h.parts[i])
  }

  predicate PartGrows(p: Part, q: Part) {
    && p.attachment <= q.attachment
    && (p.issued ==> q.issued) && (p.resolved ==> q.resolved)
    && (!p.conn.Absent? ==> !q.conn.Absent?)
  }

  lemma {:induction false} ManagerGateForward(g: Generation, ok: bool)
    requires Inv(g) && Enabled(g, ManagerStep(ok))
    ensures State(g.gate) <= State(ManagerMoves(g, ok).gate)
    ensures ManagerMoves(g, ok).gate != g.gate ==> State(g.gate) < State(ManagerMoves(g, ok).gate)
  {
    GateSet(g.gate, |g.parts|, RETIRE_REQUESTED);
    GateSet(g.gate, |g.parts|, QUARANTINED);
  }

  lemma {:induction false} GateForward(g: Generation, a: Action)
    requires Inv(g) && Enabled(g, a)
    ensures State(g.gate) <= State(Apply(g, a).gate)
  {
    if a.ConnStep? {
      ConnOutcome(g, a.i);
    } else if a.ManagerStep? {
      ManagerGateForward(g, a.ok);
    }
  }

  lemma {:induction false} NextForward(p: Part, gate: nat, failure: nat, k: nat, exited: set<nat>)
    requires PartFits(p, k, exited) && Pending(p.conn)
    ensures PartGrows(p, Next(p, gate, failure, k).part)
    ensures Next(p, gate, failure, k).part.issued == p.issued
    ensures failure != 0 ==> Next(p, gate, failure, k).failure == failure
  {
  }

  lemma {:induction false} CallForward(g: Generation, a: Action)
    requires IsCall(a) && Enabled(g, a) && PartOk(g, a.i)
    ensures PartGrows(g.parts[a.i], Call(g.parts[a.i], a))
  {
  }

  lemma {:induction false} ManagerForward(g: Generation, ok: bool, j: nat)
    requires Inv(g) && Enabled(g, ManagerStep(ok)) && j < |g.parts|
    ensures PartGrows(g.parts[j], ManagerMoves(g, ok).parts[j])
    ensures !g.manager.Granting? ==> ManagerMoves(g, ok).parts[j].issued == g.parts[j].issued
  {
  }

  lemma {:induction false} AuthorityForward(g: Generation, a: Action, j: nat)
    requires Inv(g) && Enabled(g, a) && !a.ConnStep? && !a.ManagerStep? && !IsCall(a) && j < |g.parts|
    ensures PartGrows(g.parts[j], Apply(g, a).parts[j]) && Apply(g, a).parts[j].issued == g.parts[j].issued
  {
    assert PartOk(g, j);
  }

  lemma {:induction false} PartsForward(g: Generation, a: Action, j: nat)
    requires Inv(g) && Enabled(g, a) && j < |g.parts|
    ensures PartGrows(g.parts[j], Apply(g, a).parts[j])
    ensures !g.manager.Granting? ==> Apply(g, a).parts[j].issued == g.parts[j].issued
  {
    if a.ConnStep? {
      assert PartOk(g, a.i);
      NextForward(g.parts[a.i], g.gate, g.failure, |g.parts|, g.exited);
    } else if a.ManagerStep? {
      ManagerForward(g, a.ok, j);
    } else if IsCall(a) {
      assert PartOk(g, a.i);
      CallForward(g, a);
    } else {
      AuthorityForward(g, a, j);
    }
  }

  lemma {:induction false} LedgerForward(g: Generation, a: Action)
    requires Enabled(g, a)
    ensures g.failure != 0 ==> Apply(g, a).failure == g.failure
    ensures g.noMoreGrants ==> Apply(g, a).noMoreGrants && (!g.manager.Granting? ==> !Apply(g, a).manager.Granting?)
    ensures g.quarantined ==> Apply(g, a).quarantined
  {
  }

  /** No step moves the gate, a participant's record, the first failure reason or
      the authority's ledger backwards. */
  lemma {:induction false} NeverBackwards(g: Generation, a: Action)
    requires Reachable(g) && Enabled(g, a)
    ensures Grows(g, Apply(g, a))
  {
    ReachableInv(g);
    GateForward(g, a);
    LedgerForward(g, a);
    forall i | 0 <= i < |g.parts| ensures PartGrows(g.parts[i], Apply(g, a).parts[i]) {
      PartsForward(g, a, i);
    }
  }

  // --------------------------------------------------------------------- enrollment

  /** A connection becomes enrolled only by moving a READY gate from count c < K to
      c + 1; after READY is left the enrolled set can only shrink. */
  lemma {:induction false} EnrollsOnlyWhenReady(g: Generation, a: Action, j: nat)
    requires Reachable(g) && Enabled(g, a) && j < |g.parts|
    ensures Enrolled(Apply(g, a).parts[j].conn) && !Enrolled(g.parts[j].conn) ==>
      && State(g.gate) == READY && Count(g.gate) < |g.parts|
      && a == ConnStep(j) && Apply(g, a).gate == g.gate + HIGH
  {
    ReachableInv(g);
    assert PartOk(g, j);
    if a.ConnStep? {
      ConnOutcome(g, a.i);
      assert PartOk(g, a.i);
      NextEnrollsOne(g.parts[a.i], g.gate, g.failure, |g.parts|, g.exited);
    } else if !a.ManagerStep? {
      OthersEnrollNobody(g, a, j);
    }
  }

  lemma {:induction false} NextEnrollsOne(p: Part, gate: nat, failure: nat, k: nat, exited: set<nat>)
    requires PartFits(p, k, exited) && Pending(p.conn)
    ensures var n := Next(p, gate, failure, k);
      Enrolled(n.part.conn) && !Enrolled(p.conn) ==>
        State(gate) == READY && Count(gate) < k && n.gate == gate + HIGH
  {
  }

  lemma {:induction false} OthersEnrollNobody(g: Generation, a: Action, j: nat)
    requires Inv(g) && Enabled(g, a) && j < |g.parts| && !a.ConnStep? && !a.ManagerStep?
    ensures Enrolled(Apply(g, a).parts[j].conn) ==> Enrolled(g.parts[j].conn)
  {
  }

  /** Until it is sealed, the gate counts exactly the enrolled connections, those
      that died enrolled included, and never more than K. */
  lemma {:induction false} CountIsEnrolled(g: Generation)
    requires Reachable(g) && State(g.gate) != SEALED
    ensures Count(g.gate) == Total(Enrollment, g.parts) <= |g.parts|
    ensures g.gate < HIGH * HIGH
  {
    ReachableInv(g);
    TotalBound(g.parts, 0);
  }

  /** detach never meets its INTEGRITY answer: the count it takes away is there. */
  lemma {:induction false} DetachFindsItsCount(g: Generation, i: nat)
    requires Reachable(g) && i < |g.parts| && g.parts[i].conn.Leaving?
    ensures GateValid(g.gate, |g.parts|) && Count(g.gate) > 0
    ensures Apply(g, ConnStep(i)).parts[i].conn == LeavingSwapping(g.gate)
  {
    ReachableInv(g);
    assert PartOk(g, i);
    if State(g.gate) == SEALED { NobodyRuns(g, i); }
    TotalBound(g.parts, i);
  }

  lemma {:induction false} StaysClaimed(g: Generation, acts: seq<Action>, i: nat)
    requires Inv(g) && Run(g, acts) && i < |g.parts| && !g.parts[i].conn.Absent?
    ensures Inv(After(g, acts)) && |After(g, acts).parts| == |g.parts|
    ensures !After(g, acts).parts[i].conn.Absent?
    decreases |acts|
  {
    if acts != [] {
      StepKeeps(g, acts[0]);
      PartsForward(g, acts[0], i);
      StaysClaimed(Apply(g, acts[0]), acts[1..], i);
    }
  }

  /** A grant is one-shot: whoever presents it first wins its record, which is never new
      again, so whoever presents it later in any run loses the swap and changes nothing. */
  lemma {:induction false} ClaimedOnce(g: Generation, i: nat, acts: seq<Action>)
    requires Inv(g) && Enabled(g, Claim(i)) && Run(Apply(g, Claim(i)), acts)
    ensures g.parts[i].conn.Absent? ==> Apply(g, Claim(i)).parts[i].conn == Claimed
    ensures !g.parts[i].conn.Absent? ==> Apply(g, Claim(i)) == g
    ensures |After(Apply(g, Claim(i)), acts).parts| == |g.parts|
    ensures After(Apply(g, Claim(i)), acts).parts[i].attachment != PART_NEW
    ensures var h := After(Apply(g, Claim(i)), acts); Enabled(h, Claim(i)) ==> Apply(h, Claim(i)) == h
  {
    assert PartOk(g, i);
    StepKeeps(g, Claim(i));
    StaysClaimed(Apply(g, Claim(i)), acts, i);
    assert PartOk(After(Apply(g, Claim(i)), acts), i);
  }

  // ------------------------------------------------------------------------ closing

  /** Destroy's precondition, once it holds. */
  predicate Shut(g: Generation) { g.noMoreGrants && !g.manager.Granting? && AllResolved(g.parts) }

  lemma {:induction false} ShutIsSilent(g: Generation, i: nat)
    requires Inv(g) && Shut(g) && i < |g.parts|
    ensures Silent(g.parts[i], g.exited)
  {
    assert PartOk(g, i);
  }

  lemma {:induction false} ShutGateStill(g: Generation, a: Action)
    requires Inv(g) && Shut(g) && Enabled(g, a) && !a.ManagerStep?
    ensures Apply(g, a).gate == g.gate
  {
    if a.ConnStep? { ShutIsSilent(g, a.i); }
  }

  lemma {:induction false} ShutStays(g: Generation, a: Action)
    requires Inv(g) && Shut(g) && Enabled(g, a)
    ensures Shut(Apply(g, a))
  {
    forall i | 0 <= i < |Apply(g, a).parts| && Apply(g, a).parts[i].issued ensures Apply(g, a).parts[i].resolved {
      PartsForward(g, a, i);
    }
    LedgerForward(g, a);
  }

  lemma {:induction false} ShutForever(g: Generation, acts: seq<Action>)
    requires Inv(g) && Shut(g) && Run(g, acts)
    ensures Inv(After(g, acts)) && Shut(After(g, acts)) && |After(g, acts).parts| == |g.parts|
    ensures State(g.gate) <= State(After(g, acts).gate)
    decreases |acts|
  {
    if acts != [] {
      StepKeeps(g, acts[0]);
      ShutStays(g, acts[0]);
      GateForward(g, acts[0]);
      ShutForever(Apply(g, acts[0]), acts[1..]);
    }
  }

  /** Sealing, unlinking and unmapping happen only when no participant can touch
      the mapping, and then none ever can again, whatever happens later: from then on
      only the manager moves the gate. */
  lemma {:induction false} DestroyIsSafe(g: Generation, acts: seq<Action>, i: nat)
    requires Reachable(g) && Run(g, acts) && i < |g.parts|
    requires State(g.gate) == SEALED || Closing(g.manager)
    ensures |After(g, acts).parts| == |g.parts| && Silent(After(g, acts).parts[i], After(g, acts).exited)
    ensures State(g.gate) == SEALED ==> After(g, acts).gate == SEALED
    ensures forall a :: Enabled(After(g, acts), a) && !a.ManagerStep? ==>
      Apply(After(g, acts), a).gate == After(g, acts).gate
  {
    ReachableInv(g);
    ShutForever(g, acts);
    ShutIsSilent(After(g, acts), i);
    forall a | Enabled(After(g, acts), a) && !a.ManagerStep?
      ensures Apply(After(g, acts), a).gate == After(g, acts).gate
    {
      ShutGateStill(After(g, acts), a);
    }
  }
}
