/** What every step of a generation's life keeps, and what follows for every run. */
module LifecycleSafety {
  import opened Lifecycle

  // --------------------------------------------------------------------- counting

  datatype Measure = Enrollment | Potential | Behind(gate: nat)

  /** Enrollment counts a connection the gate counts; Potential counts the gate
      changes a connection can still make by enrolling and by leaving; Behind
      counts a pending swap whose expected value is no longer the gate's. */
  function Weight(m: Measure, c: Conn): nat {
    match m
    case Enrollment => if Enrolled(c) then 1 else 0
    case Potential =>
      if c.Absent? || c.Claimed? || c.Enrolling? then 2 else if Enrolled(c) && !c.Dead? then 1 else 0
    case Behind(gate) =>
      if (c.Enrolling? || c.RetireSwapping? || c.LeavingSwapping?) && c.seen != gate then 1 else 0
  }

  function Total(m: Measure, parts: seq<Part>): nat {
    if parts == [] then 0 else Weight(m, parts[0].conn) + Total(m, parts[1..])
  }

  lemma {:induction false} TotalUpdate(m: Measure, parts: seq<Part>, i: nat, p: Part)
    requires i < |parts|
    ensures Total(m, parts[i := p]) + Weight(m, parts[i].conn) == Total(m, parts) + Weight(m, p.conn)
  {
    if i == 0 {
      assert parts[0 := p][1..] == parts[1..];
    } else {
      assert parts[i := p][1..] == parts[1..][i - 1 := p];
      TotalUpdate(m, parts[1..], i - 1, p);
    }
  }

  lemma {:induction false} TotalMonotone(m: Measure, a: seq<Part>, b: seq<Part>)
    requires |a| == |b| && forall i :: 0 <= i < |a| ==> Weight(m, a[i].conn) <= Weight(m, b[i].conn)
    ensures Total(m, a) <= Total(m, b)
  {
    if a != [] { TotalMonotone(m, a[1..], b[1..]); }
  }

  lemma {:induction false} TotalOnes(parts: seq<Part>, gate: nat)
    ensures Total(Behind(gate), parts) <= |parts|
  {
    if parts != [] { TotalOnes(parts[1..], gate); }
  }

  lemma {:induction false} TotalBound(parts: seq<Part>, i: nat)
    requires i < |parts|
    ensures Weight(Enrollment, parts[i].conn) <= Total(Enrollment, parts)
    ensures Total(Enrollment, parts) <= |parts| - 1 + Weight(Enrollment, parts[i].conn)
  {
    if |parts| > 1 { TotalBound(parts[1..], if i == 0 then 0 else i - 1); }
  }

  // -------------------------------------------------------------------- invariant

  /** How a participant's record, its connection and its process fit together. */
  predicate PartFits(p: Part, k: nat, exited: set<nat>) {
    && AttachmentFits(p.attachment, p.conn)
    && (!p.conn.Absent? ==> p.issued)
    && (p.issued ==> p.registered)
    && (Running(p.conn) ==> p.pid !in exited)
    && (p.resolved && p.issued ==> Silent(p, exited))
    && (p.resolved && !p.issued ==> p.registered && p.pid in exited)
    && !p.conn.Stalled?
    && (p.conn.Enrolling? ==> SeenOpen(p.conn.seen, k))
    && (p.conn.RetireSwapping? ==> GateValid(p.conn.seen, k) && State(p.conn.seen) == READY)
    && (p.conn.LeavingSwapping? ==> GateValid(p.conn.seen, k) && Count(p.conn.seen) > 0)
  }

  predicate PartOk(g: Generation, i: nat)
    requires i < |g.parts|
  {
    PartFits(g.parts[i], |g.parts|, g.exited)
  }

  predicate SeenOpen(seen: nat, k: nat) { GateValid(seen, k) && State(seen) == READY && Count(seen) < k }

  predicate AttachmentFits(attachment: nat, c: Conn) {
    match c
    case Absent => attachment == PART_NEW
    case Claimed => attachment == PART_JOINING
    case Enrolling(_) => attachment == PART_JOINING
    case Refused => attachment == PART_JOINING
    case Joined => attachment == PART_JOINING
    case Live(_) => attachment == PART_ACTIVE
    case Failing(_) => attachment == PART_ACTIVE
    case RetireLoading => attachment == PART_ACTIVE
    case RetireSwapping(_) => attachment == PART_ACTIVE
    case Leaving => attachment == PART_QUIESCENT
    case LeavingSwapping(_) => attachment == PART_QUIESCENT
    case Stalled => attachment == PART_QUIESCENT
    case Left => attachment == PART_QUIESCENT || attachment == PART_REJECTED
    case Gone => attachment == PART_QUIESCENT || attachment == PART_REJECTED
    case Dead(_) => PART_JOINING <= attachment <= PART_REJECTED
  }

  /** The authority is past the point where destroy found every holder resolved. */
  predicate Closing(m: Manager) { m.SealLoading? || m.SealSwapping? || m.Unlinking? || m.Unmapping? || m.Freed? }

  predicate ToQuarantine(m: Manager) {
    || m.QuarantineLoading? || m.QuarantineSwapping?
    || (m.Recording? && m.next.ThenQuarantine?)
    || (m.GateLoading? && m.next.ThenQuarantine?)
    || (m.GateSwapping? && m.next.ThenQuarantine?)
  }

  predicate ManagerOk(g: Generation) {
    && (!g.manager.Idle? && !g.manager.Granting? ==> g.noMoreGrants)
    && (g.manager.Granting? ==> !g.noMoreGrants)
    && (g.manager.GateSwapping? ==> GateValid(g.manager.seen, |g.parts|) && State(g.manager.seen) == READY)
    && (g.manager.QuarantineSwapping? ==>
          GateValid(g.manager.seen, |g.parts|) && READY <= State(g.manager.seen) < QUARANTINED)
    && (ToQuarantine(g.manager) ==> !g.quarantined)
    && (g.manager.SealSwapping? ==> GateValid(g.manager.seen, |g.parts|))
    && (Closing(g.manager) ==> AllResolved(g.parts))
    && (g.manager.Unlinking? || g.manager.Unmapping? || g.manager.Freed? ==> g.gate == SEALED)
  }

  predicate GateOk(g: Generation) {
    && 1 <= |g.parts| < HIGH
    && GateValid(g.gate, |g.parts|) && State(g.gate) >= READY
    && (State(g.gate) != SEALED ==> Count(g.gate) == Total(Enrollment, g.parts))
    && (State(g.gate) == SEALED ==> g.gate == SEALED && g.noMoreGrants && AllResolved(g.parts))
    && (State(g.gate) == QUARANTINED ==> g.quarantined)
    && (g.quarantined ==> State(g.gate) >= QUARANTINED && g.noMoreGrants)
  }

  predicate Inv(g: Generation) {
    && GateOk(g) && ManagerOk(g)
    && forall i :: 0 <= i < |g.parts| ==> PartOk(g, i)
  }

  // ------------------------------------------------------------- every step keeps it

  /** Only participant i changes, to p; the grant and its resolution stay. */
  lemma {:induction false} PartChanges(g: Generation, h: Generation, i: nat, p: Part)
    requires Inv(g) && i < |g.parts| && h.parts == g.parts[i := p] && h.exited == g.exited
    requires PartFits(p, |g.parts|, g.exited)
    ensures forall j :: 0 <= j < |h.parts| ==> PartOk(h, j)
    ensures Total(Enrollment, h.parts) + Weight(Enrollment, g.parts[i].conn)
         == Total(Enrollment, g.parts) + Weight(Enrollment, p.conn)
    ensures AllResolved(g.parts) && p.issued == g.parts[i].issued && (g.parts[i].resolved ==> p.resolved)
      ==> AllResolved(h.parts)
  {
    forall j | 0 <= j < |h.parts| ensures PartOk(h, j) { assert PartOk(g, j); }
    TotalUpdate(Enrollment, g.parts, i, p);
  }

  /** One step of a connection, on its participant and the gate alone. */
  predicate GateOpen(gate: nat, k: nat) { k < HIGH && GateValid(gate, k) && READY <= State(gate) < SEALED }

  predicate GoodOutcome(p: Part, gate: nat, k: nat, exited: set<nat>, n: Outcome) {
    && PartFits(n.part, k, exited)
    && n.part.issued == p.issued && n.part.resolved == p.resolved
    && GateValid(n.gate, k)
    && Count(n.gate) + Weight(Enrollment, p.conn) == Count(gate) + Weight(Enrollment, n.part.conn)
    && State(gate) <= State(n.gate) < SEALED
    && (State(n.gate) == QUARANTINED <==> State(gate) == QUARANTINED)
  }

  lemma {:induction false} NextGathers(p: Part, gate: nat, failure: nat, k: nat, exited: set<nat>)
    requires PartFits(p, k, exited) && GateOpen(gate, k)
    requires p.conn.Claimed? || p.conn.Refused? || p.conn.Joined? || p.conn.Failing? || p.conn.RetireLoading?
    ensures GoodOutcome(p, gate, k, exited, Next(p, gate, failure, k))
  {
  }

  lemma {:induction false} NextEnrolls(p: Part, gate: nat, failure: nat, k: nat, exited: set<nat>)
    requires PartFits(p, k, exited) && GateOpen(gate, k) && p.conn.Enrolling?
    ensures GoodOutcome(p, gate, k, exited, Next(p, gate, failure, k))
  {
    if gate == p.conn.seen { GateUp(gate, k); }
  }

  lemma {:induction false} NextRetires(p: Part, gate: nat, failure: nat, k: nat, exited: set<nat>)
    requires PartFits(p, k, exited) && GateOpen(gate, k) && p.conn.RetireSwapping?
    ensures GoodOutcome(p, gate, k, exited, Next(p, gate, failure, k))
  {
    if gate == p.conn.seen { GateSet(gate, k, RETIRE_REQUESTED); }
  }

  /** detach's count is there: it is one of those the gate counts. */
  lemma {:induction false} NextLeaves(p: Part, gate: nat, failure: nat, k: nat, exited: set<nat>)
    requires PartFits(p, k, exited) && GateOpen(gate, k) && Count(gate) > 0
    requires p.conn.Leaving? || p.conn.LeavingSwapping?
    ensures GoodOutcome(p, gate, k, exited, Next(p, gate, failure, k))
  {
    GateDown(gate, k);
  }

  lemma {:induction false} NextGood(p: Part, gate: nat, failure: nat, k: nat, exited: set<nat>)
    requires PartFits(p, k, exited) && GateOpen(gate, k) && Pending(p.conn)
    requires Enrolled(p.conn) ==> Count(gate) > 0
    ensures GoodOutcome(p, gate, k, exited, Next(p, gate, failure, k))
  {
    match p.conn
    case Enrolling(_) => NextEnrolls(p, gate, failure, k, exited);
    case RetireSwapping(_) => NextRetires(p, gate, failure, k, exited);
    case Leaving => NextLeaves(p, gate, failure, k, exited);
    case LeavingSwapping(_) => NextLeaves(p, gate, failure, k, exited);
    case _ => NextGathers(p, gate, failure, k, exited);
  }

  /** Sealing wipes the count, but only when nobody counted is left running. */
  lemma {:induction false} NobodyRuns(g: Generation, i: nat)
    requires Inv(g) && i < |g.parts| && State(g.gate) == SEALED
    ensures !Running(g.parts[i].conn)
  {
    assert PartOk(g, i);
  }

  lemma {:induction false} ConnOutcome(g: Generation, i: nat)
    requires Inv(g) && i < |g.parts| && Pending(g.parts[i].conn)
    ensures State(g.gate) < SEALED
    ensures GoodOutcome(g.parts[i], g.gate, |g.parts|, g.exited, Next(g.parts[i], g.gate, g.failure, |g.parts|))
  {
    assert PartOk(g, i);
    if State(g.gate) == SEALED { NobodyRuns(g, i); }
    TotalBound(g.parts, i);
    NextGood(g.parts[i], g.gate, g.failure, |g.parts|, g.exited);
  }

  lemma {:induction false} ConnKeeps(g: Generation, i: nat)
    requires Inv(g) && i < |g.parts| && Pending(g.parts[i].conn)
    ensures Inv(ConnMoves(g, i))
  {
    ConnOutcome(g, i);
    PartChanges(g, ConnMoves(g, i), i, Next(g.parts[i], g.gate, g.failure, |g.parts|).part);
  }

  /** The authority's own move of the gate, participants untouched. */
  lemma {:induction false} GateMoveKeeps(g: Generation, h: Generation, s: nat)
    requires Inv(g) && s <= SEALED && h.parts == g.parts && h.exited == g.exited && ManagerOk(h)
    requires h.noMoreGrants && (g.quarantined ==> h.quarantined)
    requires if s == SEALED then h.gate == SEALED && AllResolved(h.parts) && h.quarantined == g.quarantined
             else READY <= State(g.gate) < QUARANTINED && h.gate == WithState(g.gate, s) && s >= READY
                  && (h.quarantined <==> s == QUARANTINED)
    ensures Inv(h)
  {
    if s != SEALED { GateSet(g.gate, |g.parts|, s); }
    forall j | 0 <= j < |h.parts| ensures PartOk(h, j) { assert PartOk(g, j); }
  }

  lemma {:induction false} GateSwapKeeps(g: Generation, ok: bool)
    requires Inv(g) && g.manager.GateSwapping?
    ensures Inv(ManagerMoves(g, ok))
  {
    var h := ManagerMoves(g, ok);
    if g.gate == g.manager.seen {
      GateMoveKeeps(g, h, RETIRE_REQUESTED);
    } else {
      UnchangedKeeps(g, h);
    }
  }

  lemma {:induction false} QuarantineSwapKeeps(g: Generation, ok: bool)
    requires Inv(g) && g.manager.QuarantineSwapping?
    ensures Inv(ManagerMoves(g, ok))
  {
    var h := ManagerMoves(g, ok);
    if g.gate == g.manager.seen {
      GateMoveKeeps(g, h, QUARANTINED);
    } else {
      UnchangedKeeps(g, h);
    }
  }

  lemma {:induction false} SealSwapKeeps(g: Generation, ok: bool)
    requires Inv(g) && g.manager.SealSwapping?
    ensures Inv(ManagerMoves(g, ok))
  {
    var h := ManagerMoves(g, ok);
    if g.gate == g.manager.seen {
      GateMoveKeeps(g, h, SEALED);
    } else {
      UnchangedKeeps(g, h);
    }
  }

  /** Only the authority's own flags and program counter moved. */
  lemma {:induction false} UnchangedKeeps(g: Generation, h: Generation)
    requires Inv(g) && ManagerOk(h) && h.parts == g.parts && h.exited == g.exited && h.gate == g.gate
    requires h.quarantined == g.quarantined && (g.noMoreGrants ==> h.noMoreGrants)
    ensures Inv(h)
  {
    forall j | 0 <= j < |h.parts| ensures PartOk(h, j) { assert PartOk(g, j); }
  }

  lemma {:induction false} GrantKeeps(g: Generation, ok: bool)
    requires Inv(g) && g.manager.Granting?
    ensures Inv(ManagerMoves(g, ok))
  {
    var h := ManagerMoves(g, ok);
    var i := g.manager.i;
    if h.parts != g.parts {
      assert PartOk(g, i);
      PartChanges(g, h, i, h.parts[i]);
    } else {
      UnchangedKeeps(g, h);
    }
  }

  lemma {:induction false} ManagerKeeps(g: Generation, ok: bool)
    requires Inv(g) && Enabled(g, ManagerStep(ok))
    ensures Inv(ManagerMoves(g, ok))
  {
    if g.manager.Granting? {
      GrantKeeps(g, ok);
    } else if g.manager.GateSwapping? {
      GateSwapKeeps(g, ok);
    } else if g.manager.QuarantineSwapping? {
      QuarantineSwapKeeps(g, ok);
    } else if g.manager.SealSwapping? {
      SealSwapKeeps(g, ok);
    } else {
      UnchangedKeeps(g, ManagerMoves(g, ok));
    }
  }

  lemma {:induction false} ExitKeeps(g: Generation, pid: nat)
    requires Inv(g)
    ensures Inv(Apply(g, Exit(pid)))
  {
    var h := Apply(g, Exit(pid));
    forall j | 0 <= j < |h.parts| ensures PartOk(h, j) { assert PartOk(g, j); }
    TotalMonotone(Enrollment, g.parts, h.parts);
    TotalMonotone(Enrollment, h.parts, g.parts);
    assert AllResolved(g.parts) ==> AllResolved(h.parts);
  }

  lemma {:induction false} ReapKeeps(g: Generation, pid: nat)
    requires Inv(g) && Enabled(g, Reap(pid))
    ensures Inv(Apply(g, Reap(pid)))
  {
    var h := Apply(g, Reap(pid));
    forall j | 0 <= j < |h.parts| ensures PartOk(h, j) { assert PartOk(g, j); }
    TotalMonotone(Enrollment, g.parts, h.parts);
    TotalMonotone(Enrollment, h.parts, g.parts);
    assert AllResolved(g.parts) ==> AllResolved(h.parts);
  }

  lemma {:induction false} CallFits(g: Generation, a: Action)
    requires IsCall(a) && Enabled(g, a) && PartOk(g, a.i)
    ensures PartFits(Call(g.parts[a.i], a), |g.parts|, g.exited)
    ensures Weight(Enrollment, Call(g.parts[a.i], a).conn) == Weight(Enrollment, g.parts[a.i].conn)
    ensures Call(g.parts[a.i], a).issued == g.parts[a.i].issued
    ensures Call(g.parts[a.i], a).resolved == g.parts[a.i].resolved
  {
  }

  lemma {:induction false} CallKeeps(g: Generation, a: Action)
    requires Inv(g) && IsCall(a) && Enabled(g, a)
    ensures Inv(Called(g, a.i, a))
  {
    assert PartOk(g, a.i);
    CallFits(g, a);
    PartChanges(g, Called(g, a.i, a), a.i, Call(g.parts[a.i], a));
  }

  lemma {:induction false} LedgerKeeps(g: Generation, a: Action)
    requires Inv(g) && Enabled(g, a)
    requires a.Activate? || a.Register? || a.Grant? || a.Ack? || a.Retire? || a.Quarantine? || a.Destroy?
    ensures Inv(Apply(g, a))
  {
    var h := Apply(g, a);
    if a.Register? || a.Ack? {
      assert PartOk(g, a.i);
      PartChanges(g, h, a.i, h.parts[a.i]);
    } else {
      UnchangedKeeps(g, h);
    }
  }

  lemma {:induction false} StepKeeps(g: Generation, a: Action)
    requires Inv(g) && Enabled(g, a)
    ensures Inv(Apply(g, a))
  {
    match a
    case ManagerStep(ok) => ManagerKeeps(g, ok);
    case ConnStep(i) => ConnKeeps(g, i);
    case Exit(pid) => ExitKeeps(g, pid);
    case Reap(pid) => ReapKeeps(g, pid);
    case Claim(_) => CallKeeps(g, a);
    case Begin(_) => CallKeeps(g, a);
    case Finish(_) => CallKeeps(g, a);
    case Fail(_, _) => CallKeeps(g, a);
    case Detach(_) => CallKeeps(g, a);
    case Unmap(_) => CallKeeps(g, a);
    case _ => LedgerKeeps(g, a);
  }

  lemma {:induction false} InitialHolds(g: Generation)
    requires Initial(g)
    ensures Inv(g)
  {
    NobodyEnrolled(g.parts);
  }

  lemma {:induction false} NobodyEnrolled(parts: seq<Part>)
    requires forall i :: 0 <= i < |parts| ==> Fresh(parts[i])
    ensures Total(Enrollment, parts) == 0 && Total(Potential, parts) == 2 * |parts|
  {
    if parts != [] { NobodyEnrolled(parts[1..]); }
  }

  lemma {:induction false} RunKeeps(g: Generation, acts: seq<Action>)
    requires Inv(g) && Run(g, acts)
    ensures Inv(After(g, acts))
    decreases |acts|
  {
    if acts != [] {
      StepKeeps(g, acts[0]);
      RunKeeps(Apply(g, acts[0]), acts[1..]);
    }
  }
}
