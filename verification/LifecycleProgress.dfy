/** Every compare-and-swap loop of the lifecycle terminates: one generation's gate
    changes at most 2K + 4 times, and all loops together retry at most
    (K + 1)(2K + 4) times. */
module LifecycleProgress {
  import opened Lifecycle
  import opened LifecycleSafety
  import opened LifecycleTheorems

  /** Gate changes still possible. */
  function Rank(g: Generation): nat
    requires State(g.gate) <= SEALED
  {
    Total(Potential, g.parts) + SEALED - State(g.gate)
  }

  function ManagerBehind(g: Generation): nat {
    var m := g.manager;
    if (m.GateSwapping? || m.QuarantineSwapping? || m.SealSwapping?) && m.seen != g.gate then 1 else 0
  }

  function Behindhand(g: Generation): nat { Total(Behind(g.gate), g.parts) + ManagerBehind(g) }

  /** The action is a compare-and-swap that fails. */
  predicate Retries(g: Generation, a: Action)
    requires Enabled(g, a)
  {
    || (a.ConnStep? && Weight(Behind(g.gate), g.parts[a.i].conn) == 1)
    || (a.ManagerStep? && ManagerBehind(g) == 1)
  }

  ghost function RetryCount(g: Generation, acts: seq<Action>): nat
    requires Run(g, acts)
    decreases |acts|
  {
    if |acts| == 0 then 0
    else (if Retries(g, acts[0]) then 1 else 0) + RetryCount(Apply(g, acts[0]), acts[1..])
  }

  ghost function GateChanges(g: Generation, acts: seq<Action>): nat
    requires Run(g, acts)
    decreases |acts|
  {
    if |acts| == 0 then 0
    else (if Apply(g, acts[0]).gate != g.gate then 1 else 0) + GateChanges(Apply(g, acts[0]), acts[1..])
  }

  // ----------------------------------------------------------------- gate changes

  /** A connection's own step never gains potential; enrolling and leaving spend it,
      and a swap it prepares expects the gate's present value. */
  lemma {:induction false} NextSpends(p: Part, gate: nat, failure: nat, k: nat, exited: set<nat>)
    requires PartFits(p, k, exited) && Pending(p.conn)
    ensures var n := Next(p, gate, failure, k);
      && Weight(Potential, n.part.conn) <= Weight(Potential, p.conn)
      && (n.gate != gate && !p.conn.RetireSwapping? ==> Weight(Potential, n.part.conn) < Weight(Potential, p.conn))
      && (n.gate == gate ==> Weight(Behind(gate), n.part.conn) == 0)
  {
  }

  lemma {:induction false} RetireAdvances(p: Part, gate: nat, failure: nat, k: nat, exited: set<nat>)
    requires PartFits(p, k, exited) && p.conn.RetireSwapping?
    ensures Next(p, gate, failure, k).gate != gate ==> State(Next(p, gate, failure, k).gate) > State(gate)
  {
    GateSet(p.conn.seen, k, RETIRE_REQUESTED);
  }

  lemma {:induction false} ConnRank(g: Generation, i: nat)
    requires Inv(g) && i < |g.parts| && Pending(g.parts[i].conn)
    ensures Total(Potential, ConnMoves(g, i).parts) <= Total(Potential, g.parts)
    ensures ConnMoves(g, i).gate != g.gate ==>
      || Total(Potential, ConnMoves(g, i).parts) < Total(Potential, g.parts)
      || State(ConnMoves(g, i).gate) > State(g.gate)
  {
    assert PartOk(g, i);
    NextSpends(g.parts[i], g.gate, g.failure, |g.parts|, g.exited);
    TotalUpdate(Potential, g.parts, i, Next(g.parts[i], g.gate, g.failure, |g.parts|).part);
    if g.parts[i].conn.RetireSwapping? { RetireAdvances(g.parts[i], g.gate, g.failure, |g.parts|, g.exited); }
  }

  /** Every other action leaves the gate alone and no participant gains potential;
      the authority only moves the gate to a later state. */
  lemma {:induction false} OtherRank(g: Generation, a: Action)
    requires Inv(g) && Enabled(g, a) && !a.ConnStep?
    ensures Total(Potential, Apply(g, a).parts) <= Total(Potential, g.parts)
    ensures Apply(g, a).gate != g.gate ==> State(Apply(g, a).gate) > State(g.gate)
  {
    var h := Apply(g, a);
    forall j | 0 <= j < |g.parts| ensures Weight(Potential, h.parts[j].conn) <= Weight(Potential, g.parts[j].conn) {
      assert PartOk(g, j);
      OtherWeights(g, a, j);
    }
    TotalMonotone(Potential, h.parts, g.parts);
    if a.ManagerStep? { ManagerGateForward(g, a.ok); }
  }

  lemma {:induction false} OtherWeights(g: Generation, a: Action, j: nat)
    requires Enabled(g, a) && !a.ConnStep? && j < |g.parts| && PartOk(g, j)
    ensures Weight(Potential, Apply(g, a).parts[j].conn) <= Weight(Potential, g.parts[j].conn)
    ensures Weight(Behind(g.gate), Apply(g, a).parts[j].conn) <= Weight(Behind(g.gate), g.parts[j].conn)
  {
    if IsCall(a) {
      if a.i == j { CallWeights(g, a); }
    } else if a.Exit? {
      assert Apply(g, a).parts[j] == AfterExit(g.parts[j], a.pid);
    } else {
      LedgerLeavesConns(g, a, j);
    }
  }

  lemma {:induction false} LedgerLeavesConns(g: Generation, a: Action, j: nat)
    requires Enabled(g, a) && !a.ConnStep? && !IsCall(a) && !a.Exit? && j < |g.parts|
    ensures Apply(g, a).parts[j].conn == g.parts[j].conn
  {
    if a.ManagerStep? { ManagerLeavesConns(g, a.ok, j); }
  }

  lemma {:induction false} ManagerLeavesConns(g: Generation, ok: bool, j: nat)
    requires !g.manager.Idle? && !g.manager.Freed? && j < |g.parts|
    ensures ManagerMoves(g, ok).parts[j].conn == g.parts[j].conn
  {
  }

  lemma {:induction false} CallWeights(g: Generation, a: Action)
    requires IsCall(a) && Enabled(g, a) && PartOk(g, a.i)
    ensures Weight(Potential, Call(g.parts[a.i], a).conn) <= Weight(Potential, g.parts[a.i].conn)
    ensures Weight(Behind(g.gate), Call(g.parts[a.i], a).conn) <= Weight(Behind(g.gate), g.parts[a.i].conn)
  {
  }

  lemma {:induction false} RankStep(g: Generation, a: Action)
    requires Inv(g) && Enabled(g, a)
    ensures Inv(Apply(g, a)) && Rank(Apply(g, a)) <= Rank(g)
    ensures Apply(g, a).gate != g.gate ==> Rank(Apply(g, a)) < Rank(g)
  {
    StepKeeps(g, a);
    GateForward(g, a);
    if a.ConnStep? { ConnRank(g, a.i); } else { OtherRank(g, a); }
  }

  // ---------------------------------------------------------------------- retries

  lemma {:induction false} ConnBehind(g: Generation, i: nat)
    requires Inv(g) && i < |g.parts| && Pending(g.parts[i].conn) && ConnMoves(g, i).gate == g.gate
    ensures Total(Behind(g.gate), ConnMoves(g, i).parts) + Weight(Behind(g.gate), g.parts[i].conn)
         <= Total(Behind(g.gate), g.parts)
  {
    assert PartOk(g, i);
    NextSpends(g.parts[i], g.gate, g.failure, |g.parts|, g.exited);
    TotalUpdate(Behind(g.gate), g.parts, i, Next(g.parts[i], g.gate, g.failure, |g.parts|).part);
  }

  lemma {:induction false} ManagerStepCatchesUp(g: Generation, ok: bool)
    requires !g.manager.Idle? && !g.manager.Freed? && ManagerMoves(g, ok).gate == g.gate
    ensures ManagerBehind(ManagerMoves(g, ok)) == 0
  {
  }

  lemma {:induction false} ManagerCatchesUp(g: Generation, a: Action)
    requires Enabled(g, a) && !a.ConnStep? && Apply(g, a).gate == g.gate
    ensures ManagerBehind(Apply(g, a)) + (if Retries(g, a) then 1 else 0) <= ManagerBehind(g)
  {
    if a.ManagerStep? { ManagerStepCatchesUp(g, a.ok); }
  }

  lemma {:induction false} OtherBehind(g: Generation, a: Action)
    requires Inv(g) && Enabled(g, a) && !a.ConnStep? && Apply(g, a).gate == g.gate
    ensures Total(Behind(g.gate), Apply(g, a).parts) <= Total(Behind(g.gate), g.parts)
    ensures ManagerBehind(Apply(g, a)) + (if Retries(g, a) then 1 else 0) <= ManagerBehind(g)
  {
    var h := Apply(g, a);
    ManagerCatchesUp(g, a);
    forall j | 0 <= j < |g.parts|
      ensures Weight(Behind(g.gate), h.parts[j].conn) <= Weight(Behind(g.gate), g.parts[j].conn)
    {
      assert PartOk(g, j);
      OtherWeights(g, a, j);
    }
    TotalMonotone(Behind(g.gate), h.parts, g.parts);
  }

  function Debt(g: Generation): nat
    requires State(g.gate) <= SEALED
  {
    Rank(g) * (|g.parts| + 1) + Behindhand(g)
  }

  lemma {:induction false} ProductNonnegative(a: nat, b: nat)
    ensures 0 <= a * b
  {
  }

  lemma {:induction false} MulStep(a: nat, b: nat, k: nat)
    requires a < b
    ensures a * k + k <= b * k
  {
    ProductNonnegative(b - a - 1, k);
    assert b * k == a * k + k + (b - a - 1) * k;
  }

  lemma {:induction false} MulMonotone(a: nat, b: nat, k: nat)
    requires a <= b
    ensures a * k <= b * k
  {
    if a < b { MulStep(a, b, k); }
  }

  lemma {:induction false} DebtStep(g: Generation, a: Action)
    requires Inv(g) && Enabled(g, a)
    ensures Inv(Apply(g, a)) && Debt(Apply(g, a)) + (if Retries(g, a) then 1 else 0) <= Debt(g)
  {
    RankStep(g, a);
    if Apply(g, a).gate != g.gate { GateMovePays(g, a); } else { RetryPays(g, a); }
  }

  lemma {:induction false} GateMovePays(g: Generation, a: Action)
    requires Inv(g) && Enabled(g, a) && Inv(Apply(g, a)) && Rank(Apply(g, a)) < Rank(g)
    requires Apply(g, a).gate != g.gate
    ensures Debt(Apply(g, a)) + (if Retries(g, a) then 1 else 0) <= Debt(g)
  {
    var h := Apply(g, a);
    MulStep(Rank(h), Rank(g), |g.parts| + 1);
    TotalOnes(h.parts, h.gate);
    SuccessIsNoRetry(g, a);
  }

  lemma {:induction false} RetryPays(g: Generation, a: Action)
    requires Inv(g) && Enabled(g, a) && Inv(Apply(g, a)) && Rank(Apply(g, a)) <= Rank(g)
    requires Apply(g, a).gate == g.gate
    ensures Debt(Apply(g, a)) + (if Retries(g, a) then 1 else 0) <= Debt(g)
  {
    MulMonotone(Rank(Apply(g, a)), Rank(g), |g.parts| + 1);
    if a.ConnStep? { ConnBehind(g, a.i); } else { OtherBehind(g, a); }
  }

  lemma {:induction false} SuccessIsNoRetry(g: Generation, a: Action)
    requires Enabled(g, a) && Apply(g, a).gate != g.gate
    ensures !Retries(g, a)
  {
  }

  lemma {:induction false} ChangesPaid(g: Generation, acts: seq<Action>)
    requires Inv(g) && Run(g, acts)
    ensures GateChanges(g, acts) <= Rank(g)
    decreases |acts|
  {
    if acts != [] {
      RankStep(g, acts[0]);
      ChangesPaid(Apply(g, acts[0]), acts[1..]);
    }
  }

  lemma {:induction false} RetriesPaid(g: Generation, acts: seq<Action>)
    requires Inv(g) && Run(g, acts)
    ensures RetryCount(g, acts) <= Debt(g)
    decreases |acts|
  {
    if acts != [] {
      DebtStep(g, acts[0]);
      RetriesPaid(Apply(g, acts[0]), acts[1..]);
    }
  }

  /** However the K participants and the authority interleave. */
  lemma {:induction false} LoopsTerminate(start: Generation, acts: seq<Action>)
    requires Initial(start) && Run(start, acts)
    ensures GateChanges(start, acts) <= 2 * |start.parts| + 4
    ensures RetryCount(start, acts) <= (2 * |start.parts| + 4) * (|start.parts| + 1)
  {
    InitialHolds(start);
    NobodyEnrolled(start.parts);
    ChangesPaid(start, acts);
    RetriesPaid(start, acts);
    NobodyBehind(start.parts, start.gate);
  }

  lemma {:induction false} NobodyBehind(parts: seq<Part>, gate: nat)
    requires forall i :: 0 <= i < |parts| ==> Fresh(parts[i])
    ensures Total(Behind(gate), parts) == 0
  {
    if parts != [] { NobodyBehind(parts[1..], gate); }
  }
}
