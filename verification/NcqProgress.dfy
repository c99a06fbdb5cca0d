/** Lock-freedom of the pool as an amortized bound: a ranking over all program
    counters and stale snapshots pays for every step that is not a linearization
    point. */
module NcqProgress {
  import opened Words
  import opened NcqQueue
  import opened Crc
  import opened Core
  import opened NcqPool
  import opened NcqInvariant
  import opened NcqSafety
  import opened NcqTheorems

  const TOP: nat := 13

  /** How many more steps a connection can take before its next linearization
      point or response, if no other party reaches a linearization point. */
  function Rank(k: Conn, free: Queue, ready: Queue): (r: nat)
    ensures r <= TOP
  {
    var own := if k.role.Producer? then free else ready;
    match k.pc
    case Idle => 0
    case CheckGate(_) => 13
    case CheckFailure(_) => 12
    case LoadHead => 6
    case LoadEntry(h) => if h == own.head then 5 else 8
    case ClaimHead(h, _) => if h == own.head then 4 else 7
    case Validate => 3
    case StoreReserved => 1
    case Describe(_, _, _) => 11
    case StoreCommitted => 10
    case StoreEmpty => 10
    case LoadTail(w) => TailRank(if w.Free? then free else ready)
    case LoadCell(w, t) => CellRank(if w.Free? then free else ready, t)
    case InstallCell(w, t, _) => if t == |(if w.Free? then free else ready).log| then 4 else 10
    case HelpTail(w, t) => if t + 1 == |(if w.Free? then free else ready).log| then 7 else 10
    case AdvanceTail(_, _) => 1
    case RaiseFailure(_) => 2
    case RequestRetire => 1
  }

  function TailRank(q: Queue): nat { if q.tail == |q.log| then 6 else 9 }

  function CellRank(q: Queue, t: nat): nat {
    if t == |q.log| then 5 else if t + 1 == |q.log| then 8 else 11
  }

  function RankOf(s: Pool, i: nat): nat
    requires i < |s.conns|
  {
    Rank(s.conns[i], s.free, s.ready)
  }

  function Total(s: Pool, upTo: nat): nat
    requires upTo <= |s.conns|
  {
    if upTo == 0 then 0 else Total(s, upTo - 1) + RankOf(s, upTo - 1)
  }

  // ------------------------------------------------------- one connection's step

  /** An install at the frontier cannot lose its CAS: only another install could
      have changed the cell, and that would have moved the frontier. */
  lemma {:induction false} FreshInstallWins(c: Config, q: Queue, t: nat, e: nat)
    requires c.n > 0 && QueueInv(c.n, q) && OlderSaved(c, q, t, e) && t == |q.log|
    ensures Cell(c.n, q, t) == e
  {
    assert Window(c.n, q, t - c.n);
    SlotPeriod(c.n, t - c.n);
  }

  // In each case the queues are those before the step, which moves no head and no log.

  lemma {:induction false} HeadLoopFalls(c: Config, s: Pool, i: nat)
    requires Inv(c, s) && i < |s.conns| && !IsPoint(EventOf(c, s, Step(i)))
    requires s.conns[i].pc.LoadHead? || s.conns[i].pc.LoadEntry? || s.conns[i].pc.ClaimHead?
    ensures Rank(NextConn(c, s, i), s.free, s.ready) < RankOf(s, i)
  {
    assert ConnOk(c, s, i);
    var k := s.conns[i];
    if k.pc.LoadEntry? { Observe(c.n, TheQueue(s, QueueOf(k.role)), k.pc.h); }
  }

  lemma {:induction false} CellLoadRank(c: Config, k: Conn, free: Queue, ready: Queue)
    requires c.n > 0 && k.pc.LoadCell? && PcOk(c, k, free, ready)
    requires QueueInv(c.n, if k.pc.w.Free? then free else ready)
    ensures Rank(AtLoadCell(c, k, if k.pc.w.Free? then free else ready, k.pc.w, k.pc.t), free, ready)
          < Rank(k, free, ready)
  {
    Observe(c.n, if k.pc.w.Free? then free else ready, k.pc.t);
  }

  lemma {:induction false} CellLoadFalls(c: Config, s: Pool, i: nat)
    requires Inv(c, s) && i < |s.conns| && s.conns[i].pc.LoadCell?
    ensures Rank(NextConn(c, s, i), s.free, s.ready) < RankOf(s, i)
  {
    assert ConnOk(c, s, i);
    CellLoadRank(c, s.conns[i], s.free, s.ready);
  }

  lemma {:induction false} InstallRank(c: Config, k: Conn, free: Queue, ready: Queue)
    requires c.n > 0 && k.pc.InstallCell? && PcOk(c, k, free, ready)
    requires QueueInv(c.n, if k.pc.w.Free? then free else ready)
    requires Cell(c.n, if k.pc.w.Free? then free else ready, k.pc.t) != k.pc.e
    ensures Rank(Goto(k, LoadTail(k.pc.w)), free, ready) < Rank(k, free, ready)
  {
    var q := if k.pc.w.Free? then free else ready;
    if k.pc.t == |q.log| { FreshInstallWins(c, q, k.pc.t, k.pc.e); }
  }

  lemma {:induction false} TailLoopFalls(c: Config, s: Pool, i: nat)
    requires Inv(c, s) && i < |s.conns| && !IsPoint(EventOf(c, s, Step(i)))
    requires s.conns[i].pc.LoadTail? || s.conns[i].pc.InstallCell?
    ensures Rank(NextConn(c, s, i), s.free, s.ready) < RankOf(s, i)
  {
    assert ConnOk(c, s, i);
    if s.conns[i].pc.InstallCell? { InstallRank(c, s.conns[i], s.free, s.ready); }
  }

  lemma {:induction false} OwnedRank(c: Config, k: Conn, d: Desc, bytes: seq<Byte>, free: Queue, ready: Queue)
    requires OwnedPc(k.pc) && |free.log| - 1 <= free.tail <= |free.log| && |ready.log| - 1 <= ready.tail <= |ready.log|
    ensures Rank(AtOwned(c, k, d, bytes).0, free, ready) < Rank(k, free, ready)
  {
  }

  lemma {:induction false} GateRank(k: Conn, op: Op, gate: nat, failure: nat, free: Queue, ready: Queue)
    ensures k.pc == CheckGate(op) ==> Rank(AtCheckGate(k, op, gate), free, ready) < Rank(k, free, ready)
    ensures k.pc == CheckFailure(op) ==> Rank(AtCheckFailure(k, op, failure), free, ready) < Rank(k, free, ready)
  {
  }

  lemma {:induction false} PrivateFalls(c: Config, s: Pool, i: nat)
    requires Inv(c, s) && i < |s.conns|
    requires OwnedPc(s.conns[i].pc) || s.conns[i].pc.CheckGate? || s.conns[i].pc.CheckFailure?
          || s.conns[i].pc.RaiseFailure? || s.conns[i].pc.RequestRetire?
    ensures Rank(NextConn(c, s, i), s.free, s.ready) < RankOf(s, i)
  {
    assert ConnOk(c, s, i);
    var k := s.conns[i];
    if OwnedPc(k.pc) {
      OwnedRank(c, k, s.desc[k.block], s.payload[k.block], s.free, s.ready);
    } else if k.pc.CheckGate? || k.pc.CheckFailure? {
      GateRank(k, k.pc.op, s.gate, s.failure, s.free, s.ready);
    }
  }

  lemma {:induction false} NextFalls(c: Config, s: Pool, i: nat)
    requires Inv(c, s) && i < |s.conns| && !s.conns[i].pc.Idle? && !IsPoint(EventOf(c, s, Step(i)))
    requires !s.conns[i].pc.HelpTail? && !s.conns[i].pc.AdvanceTail?
    ensures Rank(NextConn(c, s, i), s.free, s.ready) < RankOf(s, i)
  {
    var pc := s.conns[i].pc;
    if pc.LoadHead? || pc.LoadEntry? || pc.ClaimHead? {
      HeadLoopFalls(c, s, i);
    } else if pc.LoadTail? || pc.InstallCell? {
      TailLoopFalls(c, s, i);
    } else if pc.LoadCell? {
      CellLoadFalls(c, s, i);
    } else {
      PrivateFalls(c, s, i);
    }
  }

  lemma {:induction false} HelpRank(k: Conn, free: Queue, ready: Queue, w: Which, t: nat)
    requires k.pc == HelpTail(w, t) || k.pc == AdvanceTail(w, t)
    requires var q := if w.Free? then free else ready; |q.log| - 1 <= q.tail <= |q.log| && t < |q.log| < U64
    ensures var q := if w.Free? then free else ready;
      var k' := if k.pc.HelpTail? then Goto(k, LoadTail(w)) else Respond(k, Ok).(owned := NoToken);
      && Rank(k', if w.Free? then TailCas(q, t) else free, if w.Free? then ready else TailCas(q, t))
         < Rank(k, free, ready)
  {
  }

  lemma {:induction false} HelpFalls(c: Config, s: Pool, i: nat)
    requires Inv(c, s) && i < |s.conns|
    requires s.conns[i].pc.HelpTail? || s.conns[i].pc.AdvanceTail?
    ensures i < |Advance(c, s, i).conns| && RankOf(Advance(c, s, i), i) < RankOf(s, i)
  {
    assert ConnOk(c, s, i);
    HelpRank(s.conns[i], s.free, s.ready, s.conns[i].pc.w, s.conns[i].pc.t);
  }

  lemma {:induction false} OwnRankFalls(c: Config, s: Pool, i: nat)
    requires Inv(c, s) && i < |s.conns| && !s.conns[i].pc.Idle? && !IsPoint(EventOf(c, s, Step(i)))
    ensures i < |Advance(c, s, i).conns| && RankOf(Advance(c, s, i), i) < RankOf(s, i)
  {
    var pc := s.conns[i].pc;
    if pc.HelpTail? || pc.AdvanceTail? {
      HelpFalls(c, s, i);
    } else {
      assert ConnOk(c, s, i);
      NextFalls(c, s, i);
      TailsStay(c, s, i);
      ConnAfter(c, s, i);
    }
  }

  /** Such a step moves at most a lagging tail up to the frontier. */
  lemma {:induction false} OnlyTailsMove(c: Config, s: Pool, i: nat)
    requires Inv(c, s) && i < |s.conns| && !IsPoint(EventOf(c, s, Step(i)))
    ensures var s' := Advance(c, s, i);
      && s'.free.head == s.free.head && s'.free.log == s.free.log
      && s'.ready.head == s.ready.head && s'.ready.log == s.ready.log
      && (s'.free.tail == s.free.tail || s'.free.tail == |s.free.log|)
      && (s'.ready.tail == s.ready.tail || s'.ready.tail == |s.ready.log|)
  {
    assert ConnOk(c, s, i);
    var pc := s.conns[i].pc;
    if pc.HelpTail? || pc.AdvanceTail? {
      TailCasKeeps(c.n, TheQueue(s, pc.w), pc.t);
    } else {
      TailsStay(c, s, i);
    }
  }

  lemma {:induction false} TailsStay(c: Config, s: Pool, i: nat)
    requires c.n > 0 && i < |s.conns| && !IsPoint(EventOf(c, s, Step(i)))
    requires !s.conns[i].pc.HelpTail? && !s.conns[i].pc.AdvanceTail?
    requires |s.desc| == |s.payload| == |s.place|
    requires s.conns[i].pc.InstallCell? ==> s.conns[i].block < |s.place|
    ensures Advance(c, s, i).free == s.free && Advance(c, s, i).ready == s.ready
  {
    match s.conns[i].pc
    case ClaimHead(_, _) =>
    case InstallCell(_, _, _) =>
    case Validate =>
    case StoreReserved =>
    case Describe(_, _, _) =>
    case StoreCommitted =>
    case StoreEmpty =>
    case _ =>
  }

  lemma {:induction false} OthersDoNotRise(k: Conn, free: Queue, ready: Queue, free': Queue, ready': Queue)
    requires free'.head == free.head && free'.log == free.log
    requires ready'.head == ready.head && ready'.log == ready.log
    requires free'.tail == free.tail || free'.tail == |free.log|
    requires ready'.tail == ready.tail || ready'.tail == |ready.log|
    ensures Rank(k, free', ready') <= Rank(k, free, ready)
  {
  }

  // --------------------------------------------------------------------- the sum

  lemma {:induction false} TotalMonotone(s: Pool, s': Pool, upTo: nat)
    requires upTo <= |s.conns| == |s'.conns|
    requires forall j :: 0 <= j < upTo ==> RankOf(s', j) <= RankOf(s, j)
    ensures Total(s', upTo) <= Total(s, upTo)
  {
    if upTo > 0 { TotalMonotone(s, s', upTo - 1); }
  }

  lemma {:induction false} TotalDrops(s: Pool, s': Pool, i: nat, upTo: nat)
    requires i < upTo <= |s.conns| == |s'.conns|
    requires forall j :: 0 <= j < upTo ==> RankOf(s', j) <= RankOf(s, j)
    requires RankOf(s', i) < RankOf(s, i)
    ensures Total(s', upTo) < Total(s, upTo)
  {
    if i == upTo - 1 { TotalMonotone(s, s', upTo - 1); } else { TotalDrops(s, s', i, upTo - 1); }
  }

  lemma {:induction false} TotalRises(s: Pool, s': Pool, i: nat, upTo: nat)
    requires upTo <= |s.conns| == |s'.conns|
    requires forall j :: 0 <= j < upTo && j != i ==> RankOf(s', j) <= RankOf(s, j)
    ensures Total(s', upTo) <= Total(s, upTo) + (if i < upTo then TOP else 0)
  {
    if upTo > 0 { TotalRises(s, s', i, upTo - 1); }
  }

  lemma {:induction false} TotalBound(s: Pool, upTo: nat)
    requires upTo <= |s.conns|
    ensures Total(s, upTo) <= TOP * upTo
  {
    if upTo > 0 { TotalBound(s, upTo - 1); }
  }

  lemma {:induction false} StallPays(c: Config, s: Pool, i: nat)
    requires Inv(c, s) && i < |s.conns| && !s.conns[i].pc.Idle? && !IsPoint(EventOf(c, s, Step(i)))
    ensures |Advance(c, s, i).conns| == |s.conns|
    ensures Total(Advance(c, s, i), |s.conns|) < Total(s, |s.conns|)
  {
    var s' := Advance(c, s, i);
    OwnRankFalls(c, s, i);
    OnlyTailsMove(c, s, i);
    forall j | 0 <= j < |s.conns| ensures j < |s'.conns| && RankOf(s', j) <= RankOf(s, j) {
      StepKeepsOffer(c, s, i, j);
      if j != i { OthersDoNotRise(s.conns[j], s.free, s.ready, s'.free, s'.ready); }
    }
    TotalDrops(s, s', i, |s.conns|);
  }

  // -------------------------------------------------------------------- whole runs

  /** Steps of the run that are not linearization points. */
  ghost function Stalls(c: Config, s: Pool, acts: seq<Action>): nat
    requires c.n > 0 && Run(c, s, acts)
    decreases |acts|
  {
    if |acts| == 0 then 0
    else
      (if acts[0].Step? && !IsPoint(EventOf(c, s, acts[0])) then 1 else 0)
      + Stalls(c, Apply(c, s, acts[0]), acts[1..])
  }

  ghost function Points(c: Config, s: Pool, acts: seq<Action>): nat
    requires c.n > 0 && Run(c, s, acts)
    decreases |acts|
  {
    if |acts| == 0 then 0
    else
      (if IsPoint(EventOf(c, s, acts[0])) then 1 else 0) + Points(c, Apply(c, s, acts[0]), acts[1..])
  }

  function Invocations(acts: seq<Action>): nat {
    if |acts| == 0 then 0 else (if acts[0].Invoke? then 1 else 0) + Invocations(acts[1..])
  }

  lemma {:induction false} CallerRank(c: Config, s: Pool, a: Action)
    requires Inv(c, s) && Enabled(c, s, a) && !a.Step?
    ensures |Apply(c, s, a).conns| == |s.conns|
    ensures Total(Apply(c, s, a), |s.conns|) <= Total(s, |s.conns|) + if a.Invoke? then TOP else 0
  {
    var s' := Apply(c, s, a);
    PlainCaller(c, s, a);
    if a.Invoke? {
      TotalRises(s, s', a.i, |s.conns|);
    } else {
      TotalMonotone(s, s', |s.conns|);
    }
  }

  /** System-wide progress: along every run the steps that are not linearization
      points number at most 13 K per linearization point plus 13 per call, for K
      connections, however the scheduler interleaves or pauses them. */
  lemma {:induction false} LockFree(c: Config, s: Pool, acts: seq<Action>, k: nat)
    requires Inv(c, s) && Run(c, s, acts) && k == |s.conns|
    ensures |After(c, s, acts).conns| == k
    ensures Stalls(c, s, acts) + Total(After(c, s, acts), k)
         <= Total(s, k) + (TOP * k) * Points(c, s, acts) + TOP * Invocations(acts)
    decreases |acts|
  {
    if |acts| > 0 {
      var a, s' := acts[0], Apply(c, s, acts[0]);
      ActionKeeps(c, s, a);
      ActionPays(c, s, a);
      Distribute(TOP * k, Points(c, s', acts[1..]));
      LockFree(c, s', acts[1..], k);
    }
  }

  lemma {:induction false} ActionPays(c: Config, s: Pool, a: Action)
    requires Inv(c, s) && Enabled(c, s, a)
    ensures |Apply(c, s, a).conns| == |s.conns|
    ensures (if a.Step? && !IsPoint(EventOf(c, s, a)) then 1 else 0) + Total(Apply(c, s, a), |s.conns|)
         <= Total(s, |s.conns|) + (if IsPoint(EventOf(c, s, a)) then TOP * |s.conns| else 0)
            + (if a.Invoke? then TOP else 0)
  {
    var s' := Apply(c, s, a);
    if a.Step? {
      StepKeepsOffer(c, s, a.i, a.i);
      if IsPoint(EventOf(c, s, a)) { TotalBound(s', |s.conns|); } else { StallPays(c, s, a.i); }
    } else {
      CallerRank(c, s, a);
    }
  }

  lemma {:induction false} Distribute(x: nat, y: nat)
    ensures x * (1 + y) == x + x * y
  {
  }

  lemma {:induction false} LockFreeFromStart(c: Config, roles: seq<Role>, acts: seq<Action>)
    requires Admitted(c) && Run(c, Initial(c, roles), acts)
    ensures Stalls(c, Initial(c, roles), acts)
         <= (TOP * |roles|) * Points(c, Initial(c, roles), acts) + TOP * Invocations(acts)
  {
    var s := Initial(c, roles);
    InitialHolds(c, roles);
    LockFree(c, s, acts, |roles|);
    IdleTotal(s, |roles|);
  }

  lemma {:induction false} IdleTotal(s: Pool, upTo: nat)
    requires upTo <= |s.conns| && forall i :: 0 <= i < |s.conns| ==> s.conns[i].pc.Idle?
    ensures Total(s, upTo) == 0
  {
    if upTo > 0 { IdleTotal(s, upTo - 1); }
  }
}
