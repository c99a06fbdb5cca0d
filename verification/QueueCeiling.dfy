/** The legal queue that the snapshot oracle rejects, reached by a run.

    One producer reserves and aborts, over and over.  Each round claims the front of
    the free queue and returns it, so after k rounds the head is k and the tail n + k,
    and with four blocks or more the epochs last until the tail stands exactly at the
    ticket ceiling.  */
module QueueCeiling {
  import opened Words
  import opened NcqQueue
  import opened Core
  import opened NcqPool
  import opened NcqInvariant
  import opened NcqSafety
  import opened NcqTheorems
  import opened NcqHistory
  import QueueOracle
  import Geometry

  // --------------------------------------------------------------------- the epochs

  /** How many of the first k tickets address slot b. */
  function Laps(n: nat, k: nat, b: nat): nat
    requires n > 0
  {
    if k == 0 then 0 else Laps(n, k - 1, b) + if Slot(n, k - 1) == b then 1 else 0
  }

  lemma {:induction false} DivModStep(n: nat, k: nat)
    requires n > 0
    ensures if k % n == n - 1 then (k + 1) / n == k / n + 1 && (k + 1) % n == 0
            else (k + 1) / n == k / n && (k + 1) % n == k % n + 1
  {
    if k % n == n - 1 {
      OneMore(n, k / n);
      DivModUnique(k + 1, n, k / n + 1, 0);
    } else {
      DivModUnique(k + 1, n, k / n, k % n + 1);
    }
  }

  lemma {:induction false} LapsAre(n: nat, k: nat, b: nat)
    requires Ring(n) && n > 0 && b < n
    ensures Laps(n, k, b) == k / n + if b < k % n then 1 else 0
  {
    if k == 0 {
      DivModUnique(0, n, 0, 0);
    } else {
      LapsAre(n, k - 1, b);
      SlotSplit(n, k - 1);
      DivModStep(n, k - 1);
    }
  }

  lemma {:induction false} FourFold(n: nat, q: nat)
    requires n >= 4
    ensures 4 * q <= n * q
  {
    assert n * q == 4 * q + (n - 4) * q;
    Product(n - 4, q);
  }

  lemma {:induction false} Product(a: nat, b: nat)
    ensures 0 <= a * b
  {
  }

  lemma {:induction false} LapsSoFar(n: nat, k: nat)
    requires Ring(n) && n > 0
    ensures Laps(n, k, Slot(n, k)) == k / n
  {
    SlotSplit(n, k);
    LapsAre(n, k, Slot(n, k));
  }

  lemma {:induction false} DivModIs(n: nat, k: nat)
    requires n > 0
    ensures k == n * (k / n) + k % n
  {
  }

  lemma {:induction false} QuotientBelow(n: nat, k: nat, q: nat, r: nat)
    requires n >= 4 && k == n * q + r && n + k < Limit(n)
    ensures q < EPOCH_CEILING
  {
    FourFold(n, q);
  }

  /** With four blocks or more no epoch runs out before the tickets do. */
  lemma {:induction false} EpochsLast(n: nat, k: nat)
    requires Ring(n) && n >= 4 && n + k < Limit(n)
    ensures Slot(n, k) < n && Laps(n, k, Slot(n, k)) < EPOCH_CEILING
  {
    LapsSoFar(n, k);
    SlotSplit(n, k);
    DivModIs(n, k);
    QuotientBelow(n, k, k / n, k % n);
  }

  // ------------------------------------------------------------------ the turning queue

  /** The free queue has gone round: ticket t always held block t mod n, and epochs count
      the reservations. */
  ghost predicate Turned(c: Config, s: Pool, h: nat, m: nat, e: nat)
    requires c.n > 0
  {
    && Inv(c, s) && s.gate == READY && s.failure == 0
    && |s.conns| > 0 && s.conns[0].role.Producer? && !s.conns[0].poisoned
    && s.free.head == h && |s.free.log| == m
    && (forall t :: 0 <= t < m ==> s.free.log[t] == Slot(c.n, t))
    && (forall b :: 0 <= b < c.n ==> s.desc[b].epoch == Laps(c.n, e, b))
  }

  /** Where the producer stands in round k. */
  predicate Stands(c: Config, s: Pool, k: nat, pc: Pc, owned: Own, serial: nat)
    requires c.n > 0 && |s.conns| > 0
  {
    var p := s.conns[0];
    p.pc == pc && p.owned == owned && p.serial == serial && (owned.WriteToken? ==> p.block == Slot(c.n, k))
  }

  ghost predicate Waiting(c: Config, s: Pool, k: nat, pc: Pc)
    requires c.n > 0
  {
    Turned(c, s, k, c.n + k, k) && s.free.tail == c.n + k && Stands(c, s, k, pc, NoToken, k)
  }

  ghost predicate Holding(c: Config, s: Pool, k: nat, pc: Pc)
    requires c.n > 0
  {
    Turned(c, s, k + 1, c.n + k, k + 1) && s.free.tail == c.n + k && Stands(c, s, k, pc, WriteToken, k + 1)
  }

  /** An action that leaves the free queue and the epochs alone. */
  lemma {:induction false} Keeps(c: Config, s: Pool, a: Action, h: nat, m: nat, e: nat)
    requires c.n > 0 && Turned(c, s, h, m, e) && Enabled(c, s, a) && !Renews(c, s, a)
    requires var s' := Apply(c, s, a);
      && s'.free.head == h && s'.free.log == s.free.log && s'.gate == READY && s'.failure == 0
      && |s'.conns| > 0 && s'.conns[0].role.Producer? && !s'.conns[0].poisoned
    ensures Turned(c, Apply(c, s, a), h, m, e)
  {
    ActionKeeps(c, s, a);
    forall b | 0 <= b < c.n ensures Apply(c, s, a).desc[b].epoch == s.desc[b].epoch { ActionEpochs(c, s, a, b); }
  }

  /** A step of the producer that touches no shared word but by loading it. */
  lemma {:induction false} Loads(c: Config, s: Pool, h: nat, m: nat, e: nat)
    requires c.n > 0 && Turned(c, s, h, m, e)
    requires var pc := s.conns[0].pc;
      pc.CheckGate? || pc.CheckFailure? || pc.LoadHead? || pc.LoadEntry? || pc.LoadTail? || pc.LoadCell?
    ensures Advance(c, s, 0) == s.(conns := s.conns[0 := NextConn(c, s, 0)])
    ensures !NextConn(c, s, 0).poisoned ==> Turned(c, Advance(c, s, 0), h, m, e)
  {
    if !NextConn(c, s, 0).poisoned { Keeps(c, s, Step(0), h, m, e); }
  }

  // ---------------------------------------------------------------------- reserving

  lemma {:induction false} EnterReserve(c: Config, s: Pool, k: nat)
    requires c.n > 0 && Waiting(c, s, k, Idle)
    ensures Enabled(c, s, Invoke(0, Reserve))
    ensures Waiting(c, Apply(c, s, Invoke(0, Reserve)), k, CheckGate(Reserve))
  {
    Keeps(c, s, Invoke(0, Reserve), k, c.n + k, k);
  }

  lemma {:induction false} PassGate(c: Config, s: Pool, k: nat)
    requires c.n > 0 && Waiting(c, s, k, CheckGate(Reserve)) && k < U64 - 1
    ensures Waiting(c, Advance(c, s, 0), k, LoadHead)
  {
    Loads(c, s, k, c.n + k, k);
  }

  lemma {:induction false} SeesHead(c: Config, s: Pool, k: nat)
    requires c.n > 0 && Waiting(c, s, k, LoadHead) && k <= Limit(c.n)
    ensures Waiting(c, Advance(c, s, 0), k, LoadEntry(k))
  {
    Loads(c, s, k, c.n + k, k);
  }

  lemma {:induction false} SeesEntry(c: Config, s: Pool, k: nat)
    requires c.n > 0 && Waiting(c, s, k, LoadEntry(k)) && k < Limit(c.n)
    ensures Waiting(c, Advance(c, s, 0), k, ClaimHead(k, Entry(c.n, k, Slot(c.n, k))))
  {
    Observe(c.n, s.free, k);
    Loads(c, s, k, c.n + k, k);
  }

  lemma {:induction false} ClaimsFront(c: Config, s: Pool, k: nat)
    requires c.n > 0 && Waiting(c, s, k, ClaimHead(k, Entry(c.n, k, Slot(c.n, k)))) && k < U64 - 1
    ensures var s' := Advance(c, s, 0);
      Turned(c, s', k + 1, c.n + k, k) && s'.free.tail == c.n + k && Stands(c, s', k, Validate, WriteToken, k + 1)
  {
    ClaimTakesFront(c, s, 0);
    ClaimEffect(c, s, 0);
    ActionKeeps(c, s, Step(0));
  }

  lemma {:induction false} FreshFits(k: Conn, d: Desc)
    requires FreeOk(d) && d.epoch < EPOCH_CEILING
    ensures ValidateFree(k, d).0.pc.StoreReserved?
  {
  }

  lemma {:induction false} Renewed(c: Config, s: Pool, k: nat)
    requires c.n >= 4 && c.n + k < Limit(c.n) && Turned(c, s, k + 1, c.n + k, k) && s.free.tail == c.n + k
    requires Stands(c, s, k, Validate, WriteToken, k + 1)
    ensures Renews(c, s, Step(0)) && Advance(c, s, 0).free == s.free
    ensures Advance(c, s, 0).gate == s.gate && Advance(c, s, 0).failure == s.failure
  {
    assert ConnOk(c, s, 0);
    EpochsLast(c.n, k);
    FreshFits(s.conns[0], s.desc[Slot(c.n, k)]);
  }

  lemma {:induction false} GetsEpoch(c: Config, s: Pool, k: nat)
    requires c.n >= 4 && c.n + k < Limit(c.n) && Turned(c, s, k + 1, c.n + k, k) && s.free.tail == c.n + k
    requires Stands(c, s, k, Validate, WriteToken, k + 1)
    ensures Holding(c, Advance(c, s, 0), k, StoreReserved)
  {
    Renewed(c, s, k);
    ActionKeeps(c, s, Step(0));
    ConnAfter(c, s, 0);
    forall b | 0 <= b < c.n ensures Advance(c, s, 0).desc[b].epoch == Laps(c.n, k + 1, b) {
      ActionEpochs(c, s, Step(0), b);
    }
    RenewMoves(c, s, k);
  }

  lemma {:induction false} RenewMoves(c: Config, s: Pool, k: nat)
    requires c.n > 0 && |s.conns| > 0 && Stands(c, s, k, Validate, WriteToken, k + 1)
    requires s.conns[0].role.Producer? && Renews(c, s, Step(0))
    ensures var p := NextConn(c, s, 0);
      && p.pc == StoreReserved && p.owned == WriteToken && p.serial == k + 1 && p.block == s.conns[0].block
      && p.role.Producer? && p.poisoned == s.conns[0].poisoned
  {
  }

  /** A private step of the producer on its block. */
  lemma {:induction false} WorksOn(c: Config, s: Pool, k: nat, next: Pc)
    requires c.n > 0 && |s.conns| > 0 && Holding(c, s, k, s.conns[0].pc)
    requires s.conns[0].pc.StoreReserved? || s.conns[0].pc.StoreEmpty?
    requires next == if s.conns[0].pc.StoreReserved? then Idle else LoadTail(Free)
    ensures Holding(c, Advance(c, s, 0), k, next)
  {
    assert ConnOk(c, s, 0);
    ConnAfter(c, s, 0);
    Keeps(c, s, Step(0), k + 1, c.n + k, k + 1);
  }

  // ----------------------------------------------------------------------- aborting

  lemma {:induction false} EnterAbort(c: Config, s: Pool, k: nat)
    requires c.n > 0 && Holding(c, s, k, Idle)
    ensures Enabled(c, s, Invoke(0, Abort))
    ensures Holding(c, Apply(c, s, Invoke(0, Abort)), k, CheckGate(Abort))
  {
    Keeps(c, s, Invoke(0, Abort), k + 1, c.n + k, k + 1);
  }

  lemma {:induction false} PassAbort(c: Config, s: Pool, k: nat)
    requires c.n > 0
    ensures Holding(c, s, k, CheckGate(Abort)) ==> Holding(c, Advance(c, s, 0), k, CheckFailure(Abort))
    ensures Holding(c, s, k, CheckFailure(Abort)) ==> Holding(c, Advance(c, s, 0), k, StoreEmpty)
  {
    if Holding(c, s, k, CheckGate(Abort)) || Holding(c, s, k, CheckFailure(Abort)) {
      Loads(c, s, k + 1, c.n + k, k + 1);
    }
  }

  lemma {:induction false} SeesTail(c: Config, s: Pool, k: nat)
    requires c.n > 0 && Holding(c, s, k, LoadTail(Free)) && c.n + k < Limit(c.n)
    ensures Holding(c, Advance(c, s, 0), k, LoadCell(Free, c.n + k))
  {
    Loads(c, s, k + 1, c.n + k, k + 1);
  }

  lemma {:induction false} SeesCell(c: Config, s: Pool, k: nat)
    requires c.n > 0 && Holding(c, s, k, LoadCell(Free, c.n + k))
    ensures Holding(c, Advance(c, s, 0), k, InstallCell(Free, c.n + k, Cell(c.n, s.free, c.n + k)))
    ensures Advance(c, s, 0).free == s.free
  {
    Observe(c.n, s.free, c.n + k);
    Loads(c, s, k + 1, c.n + k, k + 1);
  }

  lemma {:induction false} InstallsBlock(c: Config, s: Pool, k: nat)
    requires c.n > 0 && Holding(c, s, k, InstallCell(Free, c.n + k, Cell(c.n, s.free, c.n + k)))
    ensures var s' := Advance(c, s, 0);
      && Turned(c, s', k + 1, c.n + k + 1, k + 1) && s'.free.tail == c.n + k
      && Stands(c, s', k, AdvanceTail(Free, c.n + k), WriteToken, k + 1)
  {
    InstallEffect(c, s, 0);
    ActionKeeps(c, s, Step(0));
    SlotPeriod(c.n, k);
  }

  lemma {:induction false} TurnsTail(c: Config, s: Pool, k: nat)
    requires c.n > 0 && Turned(c, s, k + 1, c.n + k + 1, k + 1) && s.free.tail == c.n + k
    requires Stands(c, s, k, AdvanceTail(Free, c.n + k), WriteToken, k + 1) && c.n + k < Limit(c.n)
    ensures Waiting(c, Advance(c, s, 0), k + 1, Idle)
  {
    ConnAfter(c, s, 0);
    Keeps(c, s, Step(0), k + 1, c.n + k + 1, k + 1);
  }

  // ------------------------------------------------------------------ round after round

  lemma {:induction false} RunThen(c: Config, s: Pool, acts: seq<Action>, a: Action)
    requires c.n > 0 && Run(c, s, acts) && Enabled(c, After(c, s, acts), a)
    ensures Run(c, s, acts + [a]) && After(c, s, acts + [a]) == Apply(c, After(c, s, acts), a)
    decreases |acts|
  {
    if |acts| == 0 {
      assert (acts + [a])[1..] == [];
    } else {
      assert (acts + [a])[1..] == acts[1..] + [a];
      RunThen(c, Apply(c, s, acts[0]), acts[1..], a);
    }
  }

  lemma {:induction false} ReachableThen(c: Config, roles: seq<Role>, s: Pool, a: Action)
    requires c.n > 0 && Reachable(c, roles, s) && Enabled(c, s, a)
    ensures Reachable(c, roles, Apply(c, s, a))
  {
    var acts: seq<Action> :| Run(c, Initial(c, roles), acts) && After(c, Initial(c, roles), acts) == s;
    RunThen(c, Initial(c, roles), acts, a);
  }

  lemma {:induction false} ReservesBlock(c: Config, roles: seq<Role>, s0: Pool, k: nat) returns (s: Pool)
    requires c.n >= 4 && c.n + k < Limit(c.n) && Reachable(c, roles, s0) && Waiting(c, s0, k, Idle)
    ensures Reachable(c, roles, s) && Holding(c, s, k, Idle)
  {
    s := s0;
    EnterReserve(c, s, k);
    ReachableThen(c, roles, s, Invoke(0, Reserve));
    s := Apply(c, s, Invoke(0, Reserve));
    PassGate(c, s, k);
    s := Steps(c, roles, s);
    SeesHead(c, s, k);
    s := Steps(c, roles, s);
    SeesEntry(c, s, k);
    s := Steps(c, roles, s);
    ClaimsFront(c, s, k);
    s := Steps(c, roles, s);
    GetsEpoch(c, s, k);
    s := Steps(c, roles, s);
    WorksOn(c, s, k, Idle);
    s := Steps(c, roles, s);
  }

  lemma {:induction false} Steps(c: Config, roles: seq<Role>, s0: Pool) returns (s: Pool)
    requires c.n > 0 && Reachable(c, roles, s0) && |s0.conns| > 0 && !s0.conns[0].pc.Idle?
    ensures s == Advance(c, s0, 0) && Reachable(c, roles, s)
  {
    s := Advance(c, s0, 0);
    ReachableThen(c, roles, s0, Step(0));
  }

  lemma {:induction false} ReturnsBlock(c: Config, roles: seq<Role>, s0: Pool, k: nat) returns (s: Pool)
    requires c.n > 0 && c.n + k < Limit(c.n) && Reachable(c, roles, s0) && Holding(c, s0, k, Idle)
    ensures Reachable(c, roles, s) && Waiting(c, s, k + 1, Idle)
  {
    s := s0;
    EnterAbort(c, s, k);
    ReachableThen(c, roles, s, Invoke(0, Abort));
    s := Apply(c, s, Invoke(0, Abort));
    PassAbort(c, s, k);
    s := Steps(c, roles, s);
    PassAbort(c, s, k);
    s := Steps(c, roles, s);
    WorksOn(c, s, k, LoadTail(Free));
    s := Steps(c, roles, s);
    SeesTail(c, s, k);
    s := Steps(c, roles, s);
    SeesCell(c, s, k);
    s := Steps(c, roles, s);
    InstallsBlock(c, s, k);
    s := Steps(c, roles, s);
    TurnsTail(c, s, k);
    s := Steps(c, roles, s);
  }

  lemma {:induction false} StartsWaiting(c: Config, roles: seq<Role>)
    requires Admitted(c) && |roles| > 0 && roles[0].Producer?
    ensures Reachable(c, roles, Initial(c, roles)) && Waiting(c, Initial(c, roles), 0, Idle)
  {
    var none: seq<Action> := [];
    assert Run(c, Initial(c, roles), none) && After(c, Initial(c, roles), none) == Initial(c, roles);
    InitialHolds(c, roles);
    forall t | 0 <= t < c.n ensures Slot(c.n, t) == t { SmallSlot(c.n, t); }
  }

  lemma {:induction false} Rounds(c: Config, roles: seq<Role>, k: nat) returns (s: Pool)
    requires Admitted(c) && c.n >= 4 && |roles| > 0 && roles[0].Producer? && c.n + k <= Limit(c.n)
    ensures Reachable(c, roles, s) && Waiting(c, s, k, Idle)
    decreases k
  {
    if k == 0 {
      StartsWaiting(c, roles);
      s := Initial(c, roles);
    } else {
      s := Rounds(c, roles, k - 1);
      s := ReservesBlock(c, roles, s, k - 1);
      s := ReturnsBlock(c, roles, s, k - 1);
    }
  }

  /** So a fault-free run brings the free queue, full and in order, to a state that the
      snapshot oracle rejects although every block is in its place. */
  lemma {:induction false} OracleRejectsLegalQueue(c: Config, roles: seq<Role>) returns (s: Pool)
    requires Admitted(c) && c.n >= 4 && |roles| > 0 && roles[0].Producer?
    ensures Reachable(c, roles, s) && QueueInv(c.n, s.free) && QueueOracle.Distinct(Contents(s.free))
    ensures s.free.tail == Limit(c.n) && |Contents(s.free)| == c.n && s.failure == 0
    ensures forall j :: 0 <= j < c.n ==> s.free.cells[j] < U64
    ensures QueueOracle.Spec(s.free.head, s.free.tail, s.free.cells, c.n) == QueueOracle.Rejected
  {
    Geometry.CapacityTest(c.n);
    s := Rounds(c, roles, Limit(c.n) - c.n);
    QueueOracle.ContentsDistinct(c, s, Free);
    forall j | 0 <= j < c.n ensures s.free.cells[j] < U64 { CountersFit(c, roles, s, Free, j); }
  }
}
