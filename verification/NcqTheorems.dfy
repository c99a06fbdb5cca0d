/** What the pool promises in every run: FIFO refinement, token conservation,
    delivery of exactly the committed messages, and the bound on what a
    quarantined generation may still do. */
module NcqTheorems {
  import opened Words
  import opened NcqQueue
  import opened Crc
  import opened Core
  import opened NcqPool
  import opened NcqInvariant
  import opened NcqSafety

  /** The states of all runs of a generation with the given endpoints. */
  ghost predicate Reachable(c: Config, roles: seq<Role>, s: Pool)
    requires c.n > 0
  {
    exists acts: seq<Action> :: Run(c, Initial(c, roles), acts) && After(c, Initial(c, roles), acts) == s
  }

  lemma {:induction false} ReachableInv(c: Config, roles: seq<Role>, s: Pool)
    requires Admitted(c) && Reachable(c, roles, s)
    ensures Inv(c, s)
  {
    InitialHolds(c, roles);
    var acts: seq<Action> :| Run(c, Initial(c, roles), acts) && After(c, Initial(c, roles), acts) == s;
    RunKeeps(c, Initial(c, roles), acts);
  }

  // ------------------------------------------------------------- FIFO refinement

  datatype Event = Enqueued(w: Which, b: nat) | Dequeued(w: Which, b: nat) | SawEmpty(w: Which) | Quiet

  /** Which abstract operation, if any, takes effect at this action. */
  function EventOf(c: Config, s: Pool, a: Action): Event
    requires c.n > 0
  {
    if !a.Step? || a.i >= |s.conns| then Quiet
    else
      var k := s.conns[a.i];
      match k.pc
      case ClaimHead(h, e) =>
        if TheQueue(s, QueueOf(k.role)).head == h then Dequeued(QueueOf(k.role), Slot(c.n, e)) else Quiet
      case InstallCell(w, t, e) =>
        if Cell(c.n, TheQueue(s, w), t) == e then Enqueued(w, k.block) else Quiet
      case LoadEntry(h) =>
        var cell := Cell(c.n, TheQueue(s, QueueOf(k.role)), h);
        if !Current(c.n, h, cell) && Older(c.n, h, cell) then SawEmpty(QueueOf(k.role)) else Quiet
      case _ => Quiet
  }

  /** Two atomic FIFOs of block identifiers. */
  datatype Fifos = Fifos(free: seq<nat>, ready: seq<nat>)

  function Pick(f: Fifos, w: Which): seq<nat> { if w.Free? then f.free else f.ready }

  function Replace(f: Fifos, w: Which, xs: seq<nat>): Fifos {
    if w.Free? then f.(free := xs) else f.(ready := xs)
  }

  ghost predicate FifoStep(f: Fifos, ev: Event, f': Fifos) {
    match ev
    case Enqueued(w, b) => f' == Replace(f, w, Pick(f, w) + [b])
    case Dequeued(w, b) => Pick(f, w) != [] && b == Pick(f, w)[0] && f' == Replace(f, w, Pick(f, w)[1..])
    case SawEmpty(w) => Pick(f, w) == [] && f' == f
    case Quiet => f' == f
  }

  function Abstract(s: Pool): Fifos
    requires s.free.head <= |s.free.log| && s.ready.head <= |s.ready.log|
  {
    Fifos(Contents(s.free), Contents(s.ready))
  }

  lemma {:induction false} ClaimPops(c: Config, s: Pool, i: nat)
    requires Claims(c, s, i) && Inv(c, Advance(c, s, i))
    ensures FifoStep(Abstract(s), Dequeued(QueueOf(s.conns[i].role), Slot(c.n, s.conns[i].pc.e)),
                     Abstract(Advance(c, s, i)))
  {
    ClaimTakesFront(c, s, i);
    ClaimEffect(c, s, i);
    HeadAdvanceKeeps(c.n, TheQueue(s, QueueOf(s.conns[i].role)));
  }

  lemma {:induction false} InstallAppends(c: Config, s: Pool, i: nat)
    requires Installs(c, s, i) && Inv(c, Advance(c, s, i))
    ensures FifoStep(Abstract(s), Enqueued(s.conns[i].pc.w, s.conns[i].block), Abstract(Advance(c, s, i)))
  {
    InstallAtFrontier(c, s, i);
    InstallEffect(c, s, i);
    var s' := Advance(c, s, i);
    if s.conns[i].pc.w.Free? {
      assert Contents(s'.free) == Contents(s.free) + [s.conns[i].block];
    } else {
      assert Contents(s'.ready) == Contents(s.ready) + [s.conns[i].block];
    }
  }

  lemma {:induction false} EmptyLoad(c: Config, s: Pool, i: nat)
    requires Inv(c, s) && i < |s.conns| && s.conns[i].pc.LoadEntry?
    requires s.free.head <= |s.free.log| && s.ready.head <= |s.ready.log|
    ensures EventOf(c, s, Step(i)).SawEmpty? || EventOf(c, s, Step(i)).Quiet?
    ensures FifoStep(Abstract(s), EventOf(c, s, Step(i)), Abstract(s))
  {
    assert ConnOk(c, s, i);
    Observe(c.n, TheQueue(s, QueueOf(s.conns[i].role)), s.conns[i].pc.h);
  }

  lemma {:induction false} LinearizationPoint(c: Config, s: Pool, i: nat)
    requires Inv(c, s) && i < |s.conns| && Inv(c, Advance(c, s, i))
    requires s.conns[i].pc.ClaimHead? || s.conns[i].pc.InstallCell? || s.conns[i].pc.LoadEntry?
    ensures FifoStep(Abstract(s), EventOf(c, s, Step(i)), Abstract(Advance(c, s, i)))
  {
    match s.conns[i].pc
    case ClaimHead(h, e) => if Claims(c, s, i) { ClaimPops(c, s, i); }
    case InstallCell(w, t, e) => if Installs(c, s, i) { InstallAppends(c, s, i); }
    case LoadEntry(h) =>
      EmptyLoad(c, s, i);
      PlainStep(c, s, i);
  }

  /** Steps away from the three linearization points move no head and no log. */
  lemma {:induction false} PlainStep(c: Config, s: Pool, i: nat)
    requires c.n > 0 && i < |s.conns|
    requires !s.conns[i].pc.ClaimHead? && !s.conns[i].pc.InstallCell?
    ensures var s' := Advance(c, s, i);
      && s'.free.head == s.free.head && s'.free.log == s.free.log
      && s'.ready.head == s.ready.head && s'.ready.log == s.ready.log
      && s'.published == s.published
  {
    match s.conns[i].pc
    case HelpTail(w, t) => assert w.Free? || w.Ready?;
    case AdvanceTail(w, t) => assert w.Free? || w.Ready?;
    case Validate =>
    case StoreReserved =>
    case Describe(_, _, _) =>
    case StoreCommitted =>
    case StoreEmpty =>
    case _ =>
  }

  lemma {:induction false} PlainCaller(c: Config, s: Pool, a: Action)
    requires c.n > 0 && Enabled(c, s, a) && !a.Step?
    ensures var s' := Apply(c, s, a);
      s'.free == s.free && s'.ready == s.ready && s'.published == s.published && s'.gate >= s.gate
  {
  }

  /** Each index queue refines an atomic FIFO: an entry CAS appends at the
      frontier, a head CAS pops the front and captures exactly it, a one-older
      entry load is an instant when the queue is empty, and every other action of
      any party stutters. */
  lemma {:induction false} ActionRefines(c: Config, s: Pool, a: Action)
    requires Inv(c, s) && Enabled(c, s, a)
    ensures Inv(c, Apply(c, s, a))
    ensures FifoStep(Abstract(s), EventOf(c, s, a), Abstract(Apply(c, s, a)))
  {
    ActionKeeps(c, s, a);
    if a.Step? {
      var pc := s.conns[a.i].pc;
      if pc.ClaimHead? || pc.InstallCell? || pc.LoadEntry? {
        LinearizationPoint(c, s, a.i);
      } else {
        PlainStep(c, s, a.i);
      }
    } else {
      PlainCaller(c, s, a);
    }
  }

  ghost function Trace(c: Config, s: Pool, acts: seq<Action>): seq<Event>
    requires c.n > 0 && Run(c, s, acts)
    decreases |acts|
  {
    if |acts| == 0 then [] else [EventOf(c, s, acts[0])] + Trace(c, Apply(c, s, acts[0]), acts[1..])
  }

  ghost predicate FifoRun(f: Fifos, evs: seq<Event>, f': Fifos)
    decreases |evs|
  {
    if |evs| == 0 then f == f'
    else exists g :: FifoStep(f, evs[0], g) && FifoRun(g, evs[1..], f')
  }

  lemma {:induction false} RunRefines(c: Config, s: Pool, acts: seq<Action>)
    requires Inv(c, s) && Run(c, s, acts)
    ensures Inv(c, After(c, s, acts))
    ensures FifoRun(Abstract(s), Trace(c, s, acts), Abstract(After(c, s, acts)))
    decreases |acts|
  {
    if |acts| > 0 {
      var s' := Apply(c, s, acts[0]);
      ActionRefines(c, s, acts[0]);
      RunRefines(c, s', acts[1..]);
      assert Trace(c, s, acts)[1..] == Trace(c, s', acts[1..]);
    }
  }

  /** From construction, with the identity in QF and nothing in QR. */
  lemma {:induction false} EveryRunIsFifo(c: Config, roles: seq<Role>, acts: seq<Action>)
    requires Admitted(c) && Run(c, Initial(c, roles), acts)
    ensures Inv(c, After(c, Initial(c, roles), acts))
    ensures FifoRun(Fifos(seq(c.n, i => i), []), Trace(c, Initial(c, roles), acts),
                    Abstract(After(c, Initial(c, roles), acts)))
  {
    InitialHolds(c, roles);
    RunRefines(c, Initial(c, roles), acts);
    assert Contents(Initial(c, roles).free) == seq(c.n, i => i);
    assert Contents(Initial(c, roles).ready) == [];
  }

  // ----------------------------------------------------------- token conservation

  ghost function Holders(s: Pool, b: nat): set<nat> {
    set i: nat | i < |s.conns| && Holds(s.conns[i]) && s.conns[i].block == b
  }

  ghost function Count(xs: seq<nat>, b: nat): nat { multiset(xs)[b] }

  lemma {:induction false} OccursOnce(xs: seq<nat>, b: nat, i: nat)
    requires i < |xs| && xs[i] == b
    requires forall j :: 0 <= j < |xs| && xs[j] == b ==> j == i
    ensures Count(xs, b) == 1
  {
    var l, r := xs[..i], xs[i + 1..];
    assert xs == l + [b] + r;
    forall j | 0 <= j < |l| ensures l[j] != b { assert l[j] == xs[j]; }
    forall j | 0 <= j < |r| ensures r[j] != b { assert r[j] == xs[i + 1 + j]; }
    assert multiset(xs) == multiset(l) + multiset{b} + multiset(r);
  }

  lemma {:induction false} FreeCount(c: Config, s: Pool, b: nat)
    requires Inv(c, s) && b < c.n
    ensures Count(Contents(s.free), b) == if s.place[b].InFree? then 1 else 0
  {
    assert BlockOk(c, s, b);
    var xs := Contents(s.free);
    forall j | 0 <= j < |xs| && xs[j] == b ensures s.place[b] == InFree(s.free.head + j) {
      assert FreeMember(s, s.free.head + j);
    }
    if s.place[b].InFree? {
      OccursOnce(xs, b, s.place[b].ticket - s.free.head);
    } else {
      assert forall j :: 0 <= j < |xs| ==> xs[j] != b;
    }
  }

  lemma {:induction false} ReadyCount(c: Config, s: Pool, b: nat)
    requires Inv(c, s) && b < c.n
    ensures Count(Contents(s.ready), b) == if s.place[b].InReady? then 1 else 0
  {
    assert BlockOk(c, s, b);
    var xs := Contents(s.ready);
    forall j | 0 <= j < |xs| && xs[j] == b ensures s.place[b] == InReady(s.ready.head + j) {
      assert ReadyMember(s, s.ready.head + j);
    }
    if s.place[b].InReady? {
      OccursOnce(xs, b, s.place[b].ticket - s.ready.head);
    } else {
      assert forall j :: 0 <= j < |xs| ==> xs[j] != b;
    }
  }

  lemma {:induction false} HolderCount(c: Config, s: Pool, b: nat)
    requires Inv(c, s) && b < c.n
    ensures |Holders(s, b)| == if s.place[b].Held? then 1 else 0
  {
    assert BlockOk(c, s, b);
    forall i | i in Holders(s, b) ensures s.place[b] == Held(i) {
      assert ConnOk(c, s, i);
    }
    if s.place[b].Held? {
      assert Holders(s, b) == {s.place[b].conn};
    } else {
      assert Holders(s, b) == {};
    }
  }

  /** In every reachable state each block's token exists exactly once: in the
      free queue, in the ready queue, in one connection, or abandoned in a retired
      generation. */
  lemma {:induction false} TokenConservation(c: Config, roles: seq<Role>, s: Pool, b: nat)
    requires Admitted(c) && Reachable(c, roles, s) && b < c.n
    ensures Inv(c, s)
    ensures Count(Contents(s.free), b) + Count(Contents(s.ready), b) + |Holders(s, b)|
            + (if s.place[b].Abandoned? then 1 else 0) == 1
    ensures s.place[b].Abandoned? ==> s.gate >= RETIRE_REQUESTED
  {
    ReachableInv(c, roles, s);
    FreeCount(c, s, b);
    ReadyCount(c, s, b);
    HolderCount(c, s, b);
    assert BlockOk(c, s, b);
  }

  lemma {:induction false} QueuedFree(c: Config, s: Pool, b: nat)
    requires Inv(c, s) && b in Contents(s.free)
    ensures b < c.n && FreeOk(s.desc[b])
    ensures s.desc[b].status % 4 == EMPTY && s.desc[b].status / 4 == s.desc[b].epoch
  {
    var j :| 0 <= j < |Contents(s.free)| && Contents(s.free)[j] == b;
    assert FreeMember(s, s.free.head + j);
    assert BlockOk(c, s, b);
  }

  lemma {:induction false} QueuedReady(c: Config, s: Pool, b: nat)
    requires Inv(c, s) && b in Contents(s.ready)
    ensures b < c.n && ReadyOk(c, s.desc[b], s.payload[b])
    ensures s.desc[b].status % 4 == COMMITTED && s.desc[b].status / 4 == s.desc[b].epoch
  {
    var j :| 0 <= j < |Contents(s.ready)| && Contents(s.ready)[j] == b;
    assert ReadyMember(s, s.ready.head + j);
    assert BlockOk(c, s, b);
  }

  /** Free members are EMPTY and ready members COMMITTED, with the epoch of the
      status word equal to the descriptor epoch. */
  lemma {:induction false} QueuedPhases(c: Config, roles: seq<Role>, s: Pool, b: nat)
    requires Admitted(c) && Reachable(c, roles, s)
    ensures Inv(c, s)
    ensures b in Contents(s.free) ==>
      b < c.n && s.desc[b].status % 4 == EMPTY && s.desc[b].status / 4 == s.desc[b].epoch
    ensures b in Contents(s.ready) ==>
      && b < c.n && s.desc[b].status % 4 == COMMITTED && s.desc[b].status / 4 == s.desc[b].epoch
      && s.desc[b].length <= c.maxPayload
  {
    ReachableInv(c, roles, s);
    if b in Contents(s.free) { QueuedFree(c, s, b); }
    if b in Contents(s.ready) { QueuedReady(c, s, b); }
  }

  // ------------------------------------------------------------------- end to end

  /** Messages claimed so far are a prefix of the messages published so far. */
  lemma {:induction false} DeliveredIsPrefix(c: Config, roles: seq<Role>, s: Pool)
    requires Admitted(c) && Reachable(c, roles, s)
    ensures s.delivered <= s.published
  {
    ReachableInv(c, roles, s);
  }

  predicate Publishes(ev: Event) { ev.Enqueued? && ev.w.Ready? }

  /** What an action adds to the published record: the offer of the connection
      whose entry CAS it is, or nothing. */
  lemma {:induction false} PublishesOffer(c: Config, s: Pool, a: Action)
    requires Inv(c, s) && Enabled(c, s, a)
    ensures var s' := Apply(c, s, a);
      s'.published == s.published +
        (if Publishes(EventOf(c, s, a)) then [s.conns[a.i].offer] else [])
  {
    if a.Step? {
      var i := a.i;
      assert ConnOk(c, s, i);
      match s.conns[i].pc
      case InstallCell(w, t, e) =>
        if Installs(c, s, i) { InstallAtFrontier(c, s, i); InstallEffect(c, s, i); }
      case ClaimHead(h, e) => if Claims(c, s, i) { ClaimEffect(c, s, i); }
      case _ => PlainStep(c, s, i);
    } else {
      PlainCaller(c, s, a);
    }
  }

  /** What a step of connection i makes of the connection alone. */
  function NextConn(c: Config, s: Pool, i: nat): Conn
    requires c.n > 0 && i < |s.conns|
  {
    var k := s.conns[i];
    var q := TheQueue(s, QueueOf(k.role));
    match k.pc
    case Idle => k
    case CheckGate(op) => AtCheckGate(k, op, s.gate)
    case CheckFailure(op) => AtCheckFailure(k, op, s.failure)
    case LoadHead => AtLoadHead(c, k, q)
    case LoadEntry(h) => AtLoadEntry(c, k, q, h)
    case ClaimHead(h, e) => if q.head == h then Claimed(k, Slot(c.n, e), h) else Goto(k, LoadHead)
    case LoadTail(w) => AtLoadTail(c, k, TheQueue(s, w), w)
    case LoadCell(w, t) => AtLoadCell(c, k, TheQueue(s, w), w, t)
    case InstallCell(w, t, e) =>
      if Cell(c.n, TheQueue(s, w), t) == e then Goto(k, AdvanceTail(w, t)) else Goto(k, LoadTail(w))
    case HelpTail(w, t) => Goto(k, LoadTail(w))
    case AdvanceTail(w, t) => Respond(k, Ok).(owned := NoToken)
    case RaiseFailure(reason) => Goto(k, RequestRetire)
    case RequestRetire => Goto(k, Idle)
    case _ =>
      if k.block < |s.desc| && k.block < |s.payload| then
        AtOwned(c, k, s.desc[k.block], s.payload[k.block]).0
      else k
  }

  lemma {:induction false} ConnAfterClaim(c: Config, s: Pool, i: nat)
    requires Inv(c, s) && i < |s.conns| && s.conns[i].pc.ClaimHead?
    ensures Advance(c, s, i).conns == s.conns[i := NextConn(c, s, i)]
  {
    if Claims(c, s, i) { ClaimEffect(c, s, i); }
  }

  lemma {:induction false} ConnAfterInstall(c: Config, s: Pool, i: nat)
    requires Inv(c, s) && i < |s.conns| && s.conns[i].pc.InstallCell?
    ensures Advance(c, s, i).conns == s.conns[i := NextConn(c, s, i)]
  {
    if Installs(c, s, i) { InstallEffect(c, s, i); }
  }

  /** A step changes no connection but its own. */
  lemma {:induction false} ConnAfter(c: Config, s: Pool, i: nat)
    requires Inv(c, s) && i < |s.conns|
    ensures Advance(c, s, i).conns == s.conns[i := NextConn(c, s, i)]
  {
    match s.conns[i].pc
    case Idle =>
    case ClaimHead(_, _) => ConnAfterClaim(c, s, i);
    case InstallCell(_, _, _) => ConnAfterInstall(c, s, i);
    case Validate => assert ConnOk(c, s, i);
    case StoreReserved => assert ConnOk(c, s, i);
    case Describe(_, _, _) => assert ConnOk(c, s, i);
    case StoreCommitted => assert ConnOk(c, s, i);
    case StoreEmpty => assert ConnOk(c, s, i);
    case _ =>
  }

  lemma {:induction false} NextKeepsOffer(c: Config, s: Pool, i: nat)
    requires c.n > 0 && i < |s.conns|
    ensures NextConn(c, s, i).offer == s.conns[i].offer
  {
    match s.conns[i].pc
    case Validate =>
    case StoreReserved =>
    case Describe(_, _, _) =>
    case StoreCommitted =>
    case StoreEmpty =>
    case _ =>
  }

  lemma {:induction false} StepKeepsOffer(c: Config, s: Pool, i: nat, j: nat)
    requires Inv(c, s) && i < |s.conns| && j < |s.conns|
    ensures |Advance(c, s, i).conns| == |s.conns|
    ensures Advance(c, s, i).conns[j].offer == s.conns[j].offer
    ensures j != i ==> Advance(c, s, i).conns[j] == s.conns[j]
  {
    ConnAfter(c, s, i);
    NextKeepsOffer(c, s, i);
  }

  /** The message a commit call names: the caller's length, type and id, the
      block's epoch, and the payload bytes as they are at the call. */
  function CommitMessage(s: Pool, i: nat, op: Op): Message
    requires i < |s.conns| && op.Commit?
  {
    var k := s.conns[i];
    Message(op.length, op.mtype, op.id,
            if k.block < |s.desc| then s.desc[k.block].epoch else 0, Take(HeldBytes(s, k), op.length))
  }

  /** An offer is set only by an accepted commit call of a write-token holder. */
  lemma {:induction false} OfferIsCommit(c: Config, s: Pool, a: Action, i: nat)
    requires Inv(c, s) && Enabled(c, s, a) && i < |s.conns|
    ensures i < |Apply(c, s, a).conns|
    ensures Apply(c, s, a).conns[i].offer != s.conns[i].offer ==>
      && a.Invoke? && a.i == i && a.op.Commit? && a.op.length <= c.maxPayload
      && Holds(s.conns[i]) && s.conns[i].owned.WriteToken?
      && Apply(c, s, a).conns[i].offer == CommitMessage(s, i, a.op)
  {
    if a.Step? {
      StepKeepsOffer(c, s, a.i, i);
    } else if a.Invoke? {
      assert ConnOk(c, s, i);
    }
  }

  /** A granted read is one published message, read from memory unchanged for as
      long as it is held, and no two grants share a publication. */
  lemma {:induction false} ReadGrant(c: Config, roles: seq<Role>, s: Pool, i: nat)
    requires Admitted(c) && Reachable(c, roles, s) && i < |s.conns|
    requires s.conns[i].owned.ReadToken? && s.conns[i].pc.Idle? && !s.conns[i].poisoned
    ensures var k := s.conns[i];
      && k.block < |s.desc| && k.block < |s.payload|
      && c.n <= k.ticket < s.ready.head && k.ticket - c.n < |s.published|
      && k.span == s.published[k.ticket - c.n]
      && k.span == MessageOf(s.desc[k.block], s.payload[k.block])
      && forall j :: 0 <= j < |s.conns| && j != i && s.conns[j].owned.ReadToken? && Holds(s.conns[j])
           ==> s.conns[j].ticket != k.ticket
  {
    ReachableInv(c, roles, s);
    assert ConnOk(c, s, i);
    forall j | 0 <= j < |s.conns| && j != i && s.conns[j].owned.ReadToken? && Holds(s.conns[j])
      ensures s.conns[j].ticket != s.conns[i].ticket
    {
      assert ConnOk(c, s, j);
    }
  }

  // ------------------------------------------------------------ unreachable faults

  /** No call of a fault-free run ever reports an integrity failure. */
  lemma {:induction false} NoIntegrityFailure(c: Config, roles: seq<Role>, s: Pool, i: nat)
    requires Admitted(c) && Reachable(c, roles, s) && i < |s.conns|
    ensures s.conns[i].result != Integrity
  {
    ReachableInv(c, roles, s);
    assert ConnOk(c, s, i);
  }

  lemma {:induction false} QueueFits(n: nat, q: Queue, j: nat)
    requires QueueInv(n, q) && j < n
    ensures q.head <= Limit(n) && q.tail <= Limit(n)
    ensures q.cells[j] <= Limit(n)
  {
    SmallSlot(n, j);
    var t := SlotInWindow(n, |q.log| - n, j);
    assert Window(n, q, t);
    EntryFits(n, t, q.log[t]);
  }

  /** All counters and entries of reachable states fit uint64_t below the ticket
      ceiling, so counting up never wraps. */
  lemma {:induction false} CountersFit(c: Config, roles: seq<Role>, s: Pool, w: Which, j: nat)
    requires Admitted(c) && Reachable(c, roles, s) && j < c.n
    ensures var q := TheQueue(s, w);
      && q.head <= Limit(c.n) && q.tail <= Limit(c.n)
      && Inc(q.head) == q.head + 1 && Inc(q.tail) == q.tail + 1
      && j < |q.cells| && q.cells[j] <= Limit(c.n)
  {
    ReachableInv(c, roles, s);
    QueueFits(c.n, TheQueue(s, w), j);
  }

  /** Every epoch stays at or below the ceiling, so the shifted status word of any
      phase is exact. */
  lemma {:induction false} EpochsFit(c: Config, roles: seq<Role>, s: Pool, b: nat)
    requires Admitted(c) && Reachable(c, roles, s) && b < c.n
    ensures |s.desc| == c.n && s.desc[b].epoch <= EPOCH_CEILING
    ensures StatusWord(s.desc[b].epoch, CONSUMED) == s.desc[b].epoch * 4 + CONSUMED < U64
  {
    ReachableInv(c, roles, s);
    assert BlockOk(c, s, b);
  }

  // --------------------------------------------------------------- quarantine bound

  predicate IsPoint(ev: Event) { ev.Enqueued? || ev.Dequeued? }

  /** Past the admission check and before the call's one linearization point. */
  predicate Armed(k: Conn) {
    match k.pc
    case CheckFailure(_) => true
    case LoadHead => true
    case LoadEntry(_) => true
    case ClaimHead(_, _) => true
    case Describe(_, _, _) => true
    case StoreCommitted => true
    case StoreEmpty => true
    case LoadTail(_) => true
    case LoadCell(_, _) => true
    case InstallCell(_, _, _) => true
    case HelpTail(_, _) => true
    case _ => false
  }

  /** Linearization points of connection i along a run. */
  ghost function PointsBy(c: Config, s: Pool, acts: seq<Action>, i: nat): nat
    requires c.n > 0 && Run(c, s, acts)
    decreases |acts|
  {
    if |acts| == 0 then 0
    else
      (if acts[0] == Step(i) && IsPoint(EventOf(c, s, acts[0])) then 1 else 0)
      + PointsBy(c, Apply(c, s, acts[0]), acts[1..], i)
  }

  lemma {:induction false} ArmedNext(c: Config, s: Pool, i: nat)
    requires c.n > 0 && i < |s.conns| && s.gate >= QUARANTINED
    ensures (if IsPoint(EventOf(c, s, Step(i))) then 1 else 0) + (if Armed(NextConn(c, s, i)) then 1 else 0)
         <= if Armed(s.conns[i]) then 1 else 0
  {
    match s.conns[i].pc
    case Validate =>
    case StoreReserved =>
    case Describe(_, _, _) =>
    case StoreCommitted =>
    case StoreEmpty =>
    case _ =>
  }

  lemma {:induction false} GateStays(c: Config, s: Pool, i: nat)
    requires c.n > 0 && i < |s.conns|
    ensures Advance(c, s, i).gate >= s.gate
  {
    match s.conns[i].pc
    case ClaimHead(_, _) =>
    case InstallCell(_, _, _) =>
    case _ =>
  }

  lemma {:induction false} ArmedStep(c: Config, s: Pool, a: Action, i: nat)
    requires Inv(c, s) && Enabled(c, s, a) && i < |s.conns| && s.gate >= QUARANTINED
    ensures var s' := Apply(c, s, a);
      && s'.gate >= QUARANTINED && |s'.conns| == |s.conns|
      && (if a == Step(i) && IsPoint(EventOf(c, s, a)) then 1 else 0) + (if Armed(s'.conns[i]) then 1 else 0)
         <= if Armed(s.conns[i]) then 1 else 0
  {
    if a.Step? {
      StepKeepsOffer(c, s, a.i, i);
      GateStays(c, s, a.i);
      if a.i == i {
        ConnAfter(c, s, i);
        ArmedNext(c, s, i);
      }
    } else {
      PlainCaller(c, s, a);
    }
  }

  /** Once the gate is QUARANTINED a connection performs at most one further queue
      linearization point, and only in a call already past its admission check. */
  lemma {:induction false} QuarantineDrains(c: Config, s: Pool, acts: seq<Action>, i: nat)
    requires Inv(c, s) && Run(c, s, acts) && i < |s.conns| && s.gate >= QUARANTINED
    ensures PointsBy(c, s, acts, i) <= if Armed(s.conns[i]) then 1 else 0
    decreases |acts|
  {
    if |acts| > 0 {
      ArmedStep(c, s, acts[0], i);
      ActionKeeps(c, s, acts[0]);
      QuarantineDrains(c, Apply(c, s, acts[0]), acts[1..], i);
    }
  }
}
