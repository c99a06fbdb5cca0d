/** Every action of every interleaving keeps the pool invariant. */
module NcqSafety {
  import opened Words
  import opened NcqQueue
  import opened Crc
  import opened Core
  import opened NcqPool
  import opened NcqInvariant

  lemma {:induction false} BlocksBounded(c: Config, s: Pool)
    requires Inv(c, s)
    ensures Bounded(c, s)
  {
    forall b | 0 <= b < c.n
      ensures |s.payload[b]| == c.maxPayload && s.desc[b].epoch <= EPOCH_CEILING
    {
      assert BlockOk(c, s, b);
    }
  }

  /** What a connection may become on its own: the token, if any, stays with it. */
  predicate Moves(c: Config, k: Conn, k': Conn, d: Desc, bytes: seq<Byte>, published: seq<Message>) {
    && (Holds(k) <==> Holds(k')) && k'.block == k.block && k'.ticket == k.ticket && k'.role == k.role
    && (Holds(k) && TokenOk(c, k, d, bytes, published) ==> TokenOk(c, k', d, bytes, published))
  }

  lemma {:induction false} ConnStep(c: Config, s: Pool, i: nat, k': Conn)
    requires Inv(c, s) && i < |s.conns| && PcOk(c, k', s.free, s.ready)
    requires var k := s.conns[i];
      if Holds(k) && k.block < |s.desc| && k.block < |s.payload| then
        Moves(c, k, k', s.desc[k.block], s.payload[k.block], s.published)
      else !Holds(k')
    ensures Inv(c, Put(s, i, k'))
  {
    assert ConnOk(c, s, i);
    BlocksBounded(c, s);
    PrivateStep(c, s, Put(s, i, k'), i);
  }

  // ---------------------------------------------------- steps that touch no queue

  lemma {:induction false} AdmissionOk(c: Config, k: Conn, free: Queue, ready: Queue, gate: nat, failure: nat,
                                       d: Desc, bytes: seq<Byte>, published: seq<Message>)
    requires c.n > 0 && PcOk(c, k, free, ready)
    ensures k.pc.CheckGate? ==> var k' := AtCheckGate(k, k.pc.op, gate);
      PcOk(c, k', free, ready) && Moves(c, k, k', d, bytes, published)
    ensures k.pc.CheckFailure? ==> var k' := AtCheckFailure(k, k.pc.op, failure);
      PcOk(c, k', free, ready) && Moves(c, k, k', d, bytes, published)
  {
  }

  lemma {:induction false} AdmissionKeeps(c: Config, s: Pool, i: nat)
    requires Inv(c, s) && i < |s.conns| && (s.conns[i].pc.CheckGate? || s.conns[i].pc.CheckFailure?)
    ensures Inv(c, Advance(c, s, i))
  {
    assert ConnOk(c, s, i);
    var k := s.conns[i];
    var b := if Holds(k) then k.block else 0;
    AdmissionOk(c, k, s.free, s.ready, s.gate, s.failure, s.desc[b], s.payload[b], s.published);
    ConnStep(c, s, i, match k.pc
                      case CheckGate(op) => AtCheckGate(k, op, s.gate)
                      case CheckFailure(op) => AtCheckFailure(k, op, s.failure));
  }

  lemma {:induction false} FailStepKeeps(c: Config, s: Pool, i: nat)
    requires Inv(c, s) && i < |s.conns|
    requires s.conns[i].pc.RaiseFailure? || s.conns[i].pc.RequestRetire?
    ensures Inv(c, Advance(c, s, i))
  {
    assert ConnOk(c, s, i);
    BlocksBounded(c, s);
    PrivateStep(c, s, Advance(c, s, i), i);
  }

  lemma {:induction false} HeadLoadKeeps(c: Config, s: Pool, i: nat)
    requires Inv(c, s) && i < |s.conns|
    requires s.conns[i].pc.LoadHead? || s.conns[i].pc.LoadEntry?
    ensures Inv(c, Advance(c, s, i))
  {
    assert ConnOk(c, s, i);
    var k := s.conns[i];
    var q := TheQueue(s, QueueOf(k.role));
    if k.pc.LoadEntry? {
      Observe(c.n, q, k.pc.h);
      ConnStep(c, s, i, AtLoadEntry(c, k, q, k.pc.h));
    } else {
      ConnStep(c, s, i, AtLoadHead(c, k, q));
    }
  }

  lemma {:induction false} TailLoadOk(c: Config, k: Conn, free: Queue, ready: Queue,
                                      d: Desc, bytes: seq<Byte>, published: seq<Message>)
    requires c.n > 0 && PcOk(c, k, free, ready) && k.pc.LoadTail?
    ensures var k' := AtLoadTail(c, k, if k.pc.w.Free? then free else ready, k.pc.w);
      PcOk(c, k', free, ready) && Moves(c, k, k', d, bytes, published)
  {
  }

  lemma {:induction false} TailLoadKeeps(c: Config, s: Pool, i: nat)
    requires Inv(c, s) && i < |s.conns| && s.conns[i].pc.LoadTail?
    ensures Inv(c, Advance(c, s, i))
  {
    assert ConnOk(c, s, i);
    var k := s.conns[i];
    TailLoadOk(c, k, s.free, s.ready, s.desc[k.block], s.payload[k.block], s.published);
    ConnStep(c, s, i, AtLoadTail(c, k, TheQueue(s, k.pc.w), k.pc.w));
  }

  /** What the next program counter remembers after an enqueue reads its cell. */
  lemma {:induction false} CellLoadSaves(c: Config, k: Conn, free: Queue, ready: Queue)
    requires c.n > 0 && QueueInv(c.n, free) && QueueInv(c.n, ready)
    requires PcOk(c, k, free, ready) && k.pc.LoadCell?
    ensures var q := if k.pc.w.Free? then free else ready;
      PcOk(c, AtLoadCell(c, k, q, k.pc.w, k.pc.t), free, ready)
  {
    var q := if k.pc.w.Free? then free else ready;
    var t := k.pc.t;
    Observe(c.n, q, t);
    if t == |q.log| {
      assert Window(c.n, q, t - c.n);
      SlotPeriod(c.n, t - c.n);
      EntryParts(c.n, t - c.n, q.log[t - c.n]);
    }
  }

  lemma {:induction false} CellLoadMoves(c: Config, k: Conn, q: Queue,
                                         d: Desc, bytes: seq<Byte>, published: seq<Message>)
    requires c.n > 0 && k.pc.LoadCell?
    ensures Moves(c, k, AtLoadCell(c, k, q, k.pc.w, k.pc.t), d, bytes, published)
  {
  }

  lemma {:induction false} CellLoadKeeps(c: Config, s: Pool, i: nat)
    requires Inv(c, s) && i < |s.conns| && s.conns[i].pc.LoadCell?
    ensures Inv(c, Advance(c, s, i))
  {
    assert ConnOk(c, s, i);
    var k := s.conns[i];
    CellLoadSaves(c, k, s.free, s.ready);
    CellLoadMoves(c, k, TheQueue(s, k.pc.w), s.desc[k.block], s.payload[k.block], s.published);
    ConnStep(c, s, i, AtLoadCell(c, k, TheQueue(s, k.pc.w), k.pc.w, k.pc.t));
  }

  /** The private part of each call moves its block to the next phase and never
      takes an integrity branch. */
  lemma {:induction false} OwnedPhase(c: Config, k: Conn, d: Desc, bytes: seq<Byte>,
                                        free: Queue, ready: Queue, published: seq<Message>)
    requires c.n > 0 && OwnedPc(k.pc) && PcOk(c, k, free, ready) && TokenOk(c, k, d, bytes, published)
    ensures var (k', d') := AtOwned(c, k, d, bytes);
      && PcOk(c, k', free, ready) && TokenOk(c, k', d', bytes, published)
      && Holds(k') && k'.block == k.block && k'.ticket == k.ticket
      && (d.epoch <= EPOCH_CEILING ==> d'.epoch <= EPOCH_CEILING)
  {
    if k.pc.Validate? && k.role.Producer? { FreePhase(c, k, d, bytes, free, ready, published); }
  }

  lemma {:induction false} FreePhase(c: Config, k: Conn, d: Desc, bytes: seq<Byte>,
                                        free: Queue, ready: Queue, published: seq<Message>)
    requires c.n > 0 && k.pc.Validate? && k.role.Producer?
    requires PcOk(c, k, free, ready) && TokenOk(c, k, d, bytes, published)
    ensures var (k', d') := ValidateFree(k, d);
      && PcOk(c, k', free, ready) && TokenOk(c, k', d', bytes, published)
      && Holds(k') && k'.block == k.block && k'.ticket == k.ticket
      && (d.epoch <= EPOCH_CEILING ==> d'.epoch <= EPOCH_CEILING)
  {
  }

  lemma {:induction false} OwnedStepKeeps(c: Config, s: Pool, i: nat)
    requires Inv(c, s) && i < |s.conns| && OwnedPc(s.conns[i].pc)
    ensures Inv(c, Advance(c, s, i))
  {
    assert ConnOk(c, s, i);
    var k, s' := s.conns[i], Advance(c, s, i);
    assert BlockOk(c, s, k.block);
    BlocksBounded(c, s);
    OwnedPhase(c, k, s.desc[k.block], s.payload[k.block], s.free, s.ready, s.published);
    var (k', d') := AtOwned(c, k, s.desc[k.block], s.payload[k.block]);
    assert s' == s.(conns := s.conns[i := k'], desc := s.desc[k.block := d']);
    PrivateStep(c, s, s', i);
  }

  // ------------------------------------------------------------------ tail update

  lemma {:induction false} HelpMoves(c: Config, k: Conn, free: Queue, ready: Queue,
                                     d: Desc, bytes: seq<Byte>, published: seq<Message>)
    requires c.n > 0 && PcOk(c, k, free, ready) && k.pc.HelpTail?
    ensures PcOk(c, Goto(k, LoadTail(k.pc.w)), free, ready)
    ensures Moves(c, k, Goto(k, LoadTail(k.pc.w)), d, bytes, published)
  {
  }

  lemma {:induction false} HelpKeeps(c: Config, s: Pool, i: nat)
    requires Inv(c, s) && i < |s.conns| && s.conns[i].pc.HelpTail?
    ensures Inv(c, Advance(c, s, i))
  {
    assert ConnOk(c, s, i);
    var k := s.conns[i];
    var mid := WithQueue(s, k.pc.w, TailCas(TheQueue(s, k.pc.w), k.pc.t));
    TailStep(c, s, k.pc.w, k.pc.t);
    assert ConnOk(c, mid, i);
    HelpMoves(c, k, mid.free, mid.ready, s.desc[k.block], s.payload[k.block], s.published);
    ConnStep(c, mid, i, Goto(k, LoadTail(k.pc.w)));
  }

  lemma {:induction false} FinishKeeps(c: Config, s: Pool, i: nat)
    requires Inv(c, s) && i < |s.conns| && s.conns[i].pc.AdvanceTail?
    ensures Inv(c, Advance(c, s, i))
  {
    assert ConnOk(c, s, i);
    var k := s.conns[i];
    var mid := WithQueue(s, k.pc.w, TailCas(TheQueue(s, k.pc.w), k.pc.t));
    TailStep(c, s, k.pc.w, k.pc.t);
    ConnStep(c, mid, i, Respond(k, Ok).(owned := NoToken));
  }

  // -------------------------------------------------------------- dequeue LP

  /** The head CAS of a saved, current entry takes the front of the FIFO. */
  lemma {:induction false} ClaimTakesFront(c: Config, s: Pool, i: nat)
    requires Inv(c, s) && i < |s.conns| && s.conns[i].pc.ClaimHead?
    requires TheQueue(s, QueueOf(s.conns[i].role)).head == s.conns[i].pc.h
    ensures var q := TheQueue(s, QueueOf(s.conns[i].role));
      && q.head < |q.log|
      && Slot(c.n, s.conns[i].pc.e) == q.log[q.head] < c.n
      && s.place[q.log[q.head]] == (if s.conns[i].role.Producer? then InFree(q.head) else InReady(q.head))
  {
    assert ConnOk(c, s, i);
    var q, h := TheQueue(s, QueueOf(s.conns[i].role)), s.conns[i].pc.h;
    EntryParts(c.n, h, q.log[h]);
    if s.conns[i].role.Producer? { assert FreeMember(s, h); } else { assert ReadyMember(s, h); }
  }

  lemma {:induction false} ClaimKeeps(c: Config, s: Pool, i: nat)
    requires Inv(c, s) && i < |s.conns| && s.conns[i].pc.ClaimHead?
    ensures Inv(c, Advance(c, s, i))
  {
    assert ConnOk(c, s, i);
    var k := s.conns[i];
    var w := QueueOf(k.role);
    var q := TheQueue(s, w);
    if q.head == k.pc.h {
      ClaimTakesFront(c, s, i);
      HeadAdvanceKeeps(c.n, q);
      ClaimShape(c, s, i);
      ClaimEffect(c, s, i);
      var s' := Advance(c, s, i);
      ClaimMembers(c, s, s', i);
      forall b | 0 <= b < c.n ensures BlockOk(c, s', b) { ClaimBlock(c, s, s', i, b); }
      forall j | 0 <= j < |s'.conns| ensures ConnOk(c, s', j) { ClaimConn(c, s, s', i, j); }
    } else {
      ConnStep(c, s, i, Goto(k, LoadHead));
    }
  }

  ghost predicate Claims(c: Config, s: Pool, i: nat) {
    && Inv(c, s) && i < |s.conns| && s.conns[i].pc.ClaimHead?
    && TheQueue(s, QueueOf(s.conns[i].role)).head == s.conns[i].pc.h
  }

  lemma {:induction false} ClaimQueues(c: Config, s: Pool, i: nat)
    requires Claims(c, s, i)
    ensures var s' := Advance(c, s, i);
      && QueueInv(c.n, s'.free) && QueueInv(c.n, s'.ready)
      && s'.ready.head == s.ready.head + (if s.conns[i].role.Consumer? then 1 else 0)
  {
    ClaimTakesFront(c, s, i);
    HeadAdvanceKeeps(c.n, TheQueue(s, QueueOf(s.conns[i].role)));
  }

  lemma {:induction false} ClaimDelivers(c: Config, s: Pool, i: nat)
    requires Claims(c, s, i) && s.conns[i].role.Consumer?
    ensures s.ready.head - c.n < |s.published|
    ensures Advance(c, s, i).delivered == s.published[..s.ready.head - c.n + 1]
  {
    ClaimTakesFront(c, s, i);
    assert BlockOk(c, s, Slot(c.n, s.conns[i].pc.e));
    assert s.published[..s.ready.head - c.n + 1]
        == s.published[..s.ready.head - c.n] + [s.published[s.ready.head - c.n]];
  }

  lemma {:induction false} ClaimShape(c: Config, s: Pool, i: nat)
    requires Claims(c, s, i)
    ensures Shape(c, Advance(c, s, i))
  {
    ClaimTakesFront(c, s, i);
    ClaimQueues(c, s, i);
    if s.conns[i].role.Consumer? { ClaimDelivers(c, s, i); }
  }

  /** The ledger after a claim: one head moved, one block left its queue. */
  ghost predicate ClaimDelta(c: Config, s: Pool, s': Pool, i: nat)
    requires Claims(c, s, i)
  {
    var k := s.conns[i];
    var b := Slot(c.n, k.pc.e);
    && s'.desc == s.desc && s'.payload == s.payload && s'.published == s.published && s'.gate == s.gate
    && s'.free.log == s.free.log && s'.ready.log == s.ready.log
    && b < c.n && s'.place == s.place[b := Held(i)]
    && s'.conns == s.conns[i := Claimed(k, b, k.pc.h)]
    && (k.role.Producer? ==> s'.free == HeadAdvance(s.free, s.free.head) && s'.free.head == s.free.head + 1
                             && s'.ready == s.ready)
    && (k.role.Consumer? ==> s'.ready == HeadAdvance(s.ready, s.ready.head) && s'.ready.head == s.ready.head + 1
                             && s'.free == s.free)
  }

  lemma {:induction false} ClaimEffect(c: Config, s: Pool, i: nat)
    requires Claims(c, s, i)
    ensures ClaimDelta(c, s, Advance(c, s, i), i)
  {
    ClaimTakesFront(c, s, i);
    HeadAdvanceKeeps(c.n, TheQueue(s, QueueOf(s.conns[i].role)));
  }

  lemma {:induction false} ClaimMembers(c: Config, s: Pool, s': Pool, i: nat)
    requires Claims(c, s, i) && ClaimDelta(c, s, s', i)
    ensures forall t :: s'.free.head <= t < |s'.free.log| ==> FreeMember(s', t)
    ensures forall t :: s'.ready.head <= t < |s'.ready.log| ==> ReadyMember(s', t)
  {
    ClaimTakesFront(c, s, i);
    forall t | s'.free.head <= t < |s'.free.log| ensures FreeMember(s', t) {
      assert FreeMember(s, t);
    }
    forall t | s'.ready.head <= t < |s'.ready.log| ensures ReadyMember(s', t) {
      assert ReadyMember(s, t);
    }
  }

  lemma {:induction false} ClaimBlock(c: Config, s: Pool, s': Pool, i: nat, b: nat)
    requires Claims(c, s, i) && ClaimDelta(c, s, s', i) && b < c.n
    ensures BlockOk(c, s', b)
  {
    ClaimTakesFront(c, s, i);
    assert ConnOk(c, s, i);
    assert BlockOk(c, s, b);
  }

  lemma {:induction false} ClaimConn(c: Config, s: Pool, s': Pool, i: nat, j: nat)
    requires Claims(c, s, i) && ClaimDelta(c, s, s', i) && j < |s.conns|
    ensures ConnOk(c, s', j)
  {
    ClaimTakesFront(c, s, i);
    assert ConnOk(c, s, j);
    if j == i {
      assert BlockOk(c, s, Slot(c.n, s.conns[i].pc.e));
    } else {
      PcOkGrows(c, s.conns[j], s.free, s.ready, s'.free, s'.ready);
    }
  }

  // -------------------------------------------------------------- enqueue LP

  ghost predicate Installs(c: Config, s: Pool, i: nat) {
    && Inv(c, s) && i < |s.conns| && s.conns[i].pc.InstallCell?
    && Cell(c.n, TheQueue(s, s.conns[i].pc.w), s.conns[i].pc.t) == s.conns[i].pc.e
  }

  /** An entry CAS that succeeds does so at exactly the publication frontier, on a
      queue that is not full, with the block its connection alone holds. */
  lemma {:induction false} InstallAtFrontier(c: Config, s: Pool, i: nat)
    requires Installs(c, s, i)
    ensures var k := s.conns[i]; var q := TheQueue(s, k.pc.w);
      && k.pc.t == |q.log| == q.tail < Limit(c.n)
      && |q.log| < q.head + c.n
      && k.block < c.n && s.place[k.block] == Held(i)
  {
    assert ConnOk(c, s, i);
    Observe(c.n, TheQueue(s, s.conns[i].pc.w), s.conns[i].pc.t);
    NotFull(c, s, s.conns[i].pc.w, s.conns[i].block);
  }

  /** The ledger after an install: one block moved, one log grew by it. */
  ghost predicate InstallDelta(c: Config, s: Pool, s': Pool, i: nat)
    requires Installs(c, s, i)
  {
    var k := s.conns[i];
    var b := k.block;
    && b < c.n
    && s'.desc == s.desc && s'.payload == s.payload && s'.gate == s.gate
    && s'.conns == s.conns[i := Goto(k, AdvanceTail(k.pc.w, k.pc.t))]
    && (k.pc.w.Free? ==>
          && s'.free.log == s.free.log + [b] && s'.free.head == s.free.head && s'.free.tail == s.free.tail
          && s'.ready == s.ready && s'.published == s.published
          && s'.place == s.place[b := InFree(|s.free.log|)])
    && (k.pc.w.Ready? ==>
          && s'.ready.log == s.ready.log + [b] && s'.ready.head == s.ready.head && s'.ready.tail == s.ready.tail
          && s'.free == s.free && s'.published == s.published + [MessageOf(s.desc[b], s.payload[b])]
          && s'.place == s.place[b := InReady(|s.ready.log|)])
  }

  lemma {:induction false} InstallEffect(c: Config, s: Pool, i: nat)
    requires Installs(c, s, i)
    ensures InstallDelta(c, s, Advance(c, s, i), i)
  {
    InstallAtFrontier(c, s, i);
    InstallKeeps(c.n, TheQueue(s, s.conns[i].pc.w), s.conns[i].block);
  }

  lemma {:induction false} InstallQueue(c: Config, s: Pool, i: nat)
    requires Installs(c, s, i)
    ensures QueueInv(c.n, TheQueue(Advance(c, s, i), s.conns[i].pc.w))
    ensures |Advance(c, s, i).delivered| == |s.delivered| && Advance(c, s, i).delivered == s.delivered
    ensures |Advance(c, s, i).desc| == |Advance(c, s, i).payload| == |Advance(c, s, i).place| == c.n
  {
    InstallAtFrontier(c, s, i);
    InstallKeeps(c.n, TheQueue(s, s.conns[i].pc.w), s.conns[i].block);
  }

  lemma {:induction false} InstallShape(c: Config, s: Pool, s': Pool, i: nat)
    requires Installs(c, s, i) && InstallDelta(c, s, s', i)
    requires QueueInv(c.n, TheQueue(s', s.conns[i].pc.w)) && s'.delivered == s.delivered
    requires |s'.desc| == |s'.payload| == |s'.place| == c.n
    ensures Shape(c, s')
  {
    assert s'.published[..s'.ready.head - c.n] == s.published[..s.ready.head - c.n];
  }

  lemma {:induction false} InstallMembers(c: Config, s: Pool, s': Pool, i: nat)
    requires Installs(c, s, i) && InstallDelta(c, s, s', i)
    ensures forall t :: s'.free.head <= t < |s'.free.log| ==> FreeMember(s', t)
    ensures forall t :: s'.ready.head <= t < |s'.ready.log| ==> ReadyMember(s', t)
  {
    InstallAtFrontier(c, s, i);
    forall t | s'.free.head <= t < |s'.free.log| ensures FreeMember(s', t) {
      if t < |s.free.log| { assert FreeMember(s, t); }
    }
    forall t | s'.ready.head <= t < |s'.ready.log| ensures ReadyMember(s', t) {
      if t < |s.ready.log| { assert ReadyMember(s, t); }
    }
  }

  lemma {:induction false} InstallOwnBlock(c: Config, s: Pool, s': Pool, i: nat)
    requires Installs(c, s, i) && InstallDelta(c, s, s', i)
    ensures BlockOk(c, s', s.conns[i].block)
  {
    InstallAtFrontier(c, s, i);
    assert BlockOk(c, s, s.conns[i].block);
    assert ConnOk(c, s, i);
  }

  lemma {:induction false} InstallOtherBlock(c: Config, s: Pool, s': Pool, i: nat, b: nat)
    requires Installs(c, s, i) && InstallDelta(c, s, s', i) && b < c.n && b != s.conns[i].block
    ensures BlockOk(c, s', b)
  {
    assert BlockOk(c, s, b);
  }

  lemma {:induction false} InstallConn(c: Config, s: Pool, s': Pool, i: nat, j: nat)
    requires Installs(c, s, i) && InstallDelta(c, s, s', i) && j < |s.conns|
    ensures ConnOk(c, s', j)
  {
    InstallAtFrontier(c, s, i);
    assert ConnOk(c, s, j);
    if j != i {
      PcOkGrows(c, s.conns[j], s.free, s.ready, s'.free, s'.ready);
      if Holds(s.conns[j]) {
        TokenOkGrows(c, s.conns[j], s.desc[s.conns[j].block], s.payload[s.conns[j].block],
                     s.published, s'.published);
      }
    }
  }

  lemma {:induction false} InstalledKeeps(c: Config, s: Pool, s': Pool, i: nat)
    requires Installs(c, s, i) && InstallDelta(c, s, s', i) && Shape(c, s')
    ensures Inv(c, s')
  {
    InstallMembers(c, s, s', i);
    forall b | 0 <= b < c.n ensures BlockOk(c, s', b) {
      if b == s.conns[i].block { InstallOwnBlock(c, s, s', i); } else { InstallOtherBlock(c, s, s', i, b); }
    }
    forall j | 0 <= j < |s'.conns| ensures ConnOk(c, s', j) { InstallConn(c, s, s', i, j); }
  }

  lemma {:induction false} LostInstallMoves(c: Config, k: Conn, d: Desc, bytes: seq<Byte>, published: seq<Message>)
    requires k.pc.InstallCell?
    ensures Moves(c, k, Goto(k, LoadTail(k.pc.w)), d, bytes, published)
  {
  }

  lemma {:induction false} InstallStepKeeps(c: Config, s: Pool, i: nat)
    requires Inv(c, s) && i < |s.conns| && s.conns[i].pc.InstallCell?
    ensures Inv(c, Advance(c, s, i))
  {
    assert ConnOk(c, s, i);
    var k, s' := s.conns[i], Advance(c, s, i);
    if Installs(c, s, i) {
      InstallEffect(c, s, i);
      InstallQueue(c, s, i);
      InstallShape(c, s, s', i);
      InstalledKeeps(c, s, s', i);
    } else {
      LostInstallMoves(c, k, s.desc[k.block], s.payload[k.block], s.published);
      ConnStep(c, s, i, Goto(k, LoadTail(k.pc.w)));
    }
  }

  // ----------------------------------------------------------------- all actions

  lemma {:induction false} AdvanceKeeps(c: Config, s: Pool, i: nat)
    requires Inv(c, s) && i < |s.conns|
    ensures Inv(c, Advance(c, s, i))
  {
    match s.conns[i].pc
    case Idle =>
    case CheckGate(_) => AdmissionKeeps(c, s, i);
    case CheckFailure(_) => AdmissionKeeps(c, s, i);
    case LoadHead => HeadLoadKeeps(c, s, i);
    case LoadEntry(_) => HeadLoadKeeps(c, s, i);
    case ClaimHead(_, _) => ClaimKeeps(c, s, i);
    case LoadTail(_) => TailLoadKeeps(c, s, i);
    case LoadCell(_, _) => CellLoadKeeps(c, s, i);
    case InstallCell(_, _, _) => InstallStepKeeps(c, s, i);
    case HelpTail(_, _) => HelpKeeps(c, s, i);
    case AdvanceTail(_, _) => FinishKeeps(c, s, i);
    case RaiseFailure(_) => FailStepKeeps(c, s, i);
    case RequestRetire => FailStepKeeps(c, s, i);
    case _ => OwnedStepKeeps(c, s, i);
  }

  lemma {:induction false} InvokePhase(c: Config, k: Conn, op: Op, d: Desc, bytes: seq<Byte>,
                    free: Queue, ready: Queue, published: seq<Message>)
    requires c.n > 0 && k.pc.Idle? && PcOk(c, k, free, ready)
    ensures var k' := AtInvoke(c, k, op, bytes);
      && PcOk(c, k', free, ready)
      && (Holds(k) <==> Holds(k')) && k'.block == k.block && k'.ticket == k.ticket
      && (Holds(k) && TokenOk(c, k, d, bytes, published) ==> TokenOk(c, k', d, bytes, published))
  {
  }

  lemma {:induction false} InvokeKeeps(c: Config, s: Pool, i: nat, op: Op)
    requires Inv(c, s) && Enabled(c, s, Invoke(i, op))
    ensures Inv(c, Apply(c, s, Invoke(i, op)))
  {
    assert ConnOk(c, s, i);
    BlocksBounded(c, s);
    var k := s.conns[i];
    if Holds(k) {
      InvokePhase(c, k, op, s.desc[k.block], s.payload[k.block], s.free, s.ready, s.published);
    } else {
      InvokePhase(c, k, op, s.desc[0], HeldBytes(s, k), s.free, s.ready, s.published);
    }
    PrivateStep(c, s, Apply(c, s, Invoke(i, op)), i);
  }

  lemma {:induction false} EnableDrainKeeps(c: Config, s: Pool, i: nat)
    requires Inv(c, s) && Enabled(c, s, EnableDrain(i))
    ensures Inv(c, Apply(c, s, EnableDrain(i)))
  {
    assert ConnOk(c, s, i);
    BlocksBounded(c, s);
    PrivateStep(c, s, Apply(c, s, EnableDrain(i)), i);
  }

  /** Stores into a write span change only a block that nobody else can read. */
  lemma {:induction false} WriteByteKeeps(c: Config, s: Pool, i: nat, at: nat, value: Byte)
    requires Inv(c, s) && Enabled(c, s, WriteByte(i, at, value))
    ensures Inv(c, Apply(c, s, WriteByte(i, at, value)))
  {
    assert ConnOk(c, s, i);
    BlocksBounded(c, s);
    var s' := Apply(c, s, WriteByte(i, at, value));
    assert s'.conns == s.conns[i := s.conns[i]];
    PrivateStep(c, s, s', i);
  }

  lemma {:induction false} AbandonLedger(c: Config, s: Pool, s': Pool, i: nat, b: nat)
    requires Inv(c, s) && i < |s.conns| && Holds(s.conns[i]) && s.conns[i].block < c.n && b < c.n
    requires s.gate >= RETIRE_REQUESTED
    requires s' == s.(conns := s'.conns, place := s.place[s.conns[i].block := Abandoned])
    requires |s'.conns| == |s.conns| && forall j :: 0 <= j < |s.conns| && j != i ==> s'.conns[j] == s.conns[j]
    ensures BlockOk(c, s', b)
  {
    assert BlockOk(c, s, b) && ConnOk(c, s, i);
  }

  lemma {:induction false} AbandonKeeps(c: Config, s: Pool, i: nat)
    requires Inv(c, s) && Enabled(c, s, Abandon(i))
    ensures Inv(c, Apply(c, s, Abandon(i)))
  {
    assert ConnOk(c, s, i);
    var s' := Apply(c, s, Abandon(i));
    forall t | s'.free.head <= t < |s'.free.log| ensures FreeMember(s', t) { assert FreeMember(s, t); }
    forall t | s'.ready.head <= t < |s'.ready.log| ensures ReadyMember(s', t) { assert ReadyMember(s, t); }
    forall b | 0 <= b < c.n ensures BlockOk(c, s', b) { AbandonLedger(c, s, s', i, b); }
    forall j | 0 <= j < |s'.conns| ensures ConnOk(c, s', j) { assert ConnOk(c, s, j); }
  }

  lemma {:induction false} EnvironmentKeeps(c: Config, s: Pool, a: Action)
    requires Inv(c, s) && Enabled(c, s, a) && (a.RaiseBy? || a.MoveGate?)
    ensures Inv(c, Apply(c, s, a))
  {
    var s' := Apply(c, s, a);
    forall t | s'.free.head <= t < |s'.free.log| ensures FreeMember(s', t) { assert FreeMember(s, t); }
    forall t | s'.ready.head <= t < |s'.ready.log| ensures ReadyMember(s', t) { assert ReadyMember(s, t); }
    forall b | 0 <= b < c.n ensures BlockOk(c, s', b) { assert BlockOk(c, s, b); }
    forall j | 0 <= j < |s'.conns| ensures ConnOk(c, s', j) { assert ConnOk(c, s, j); }
  }

  lemma {:induction false} ActionKeeps(c: Config, s: Pool, a: Action)
    requires Inv(c, s) && Enabled(c, s, a)
    ensures Inv(c, Apply(c, s, a))
  {
    match a
    case Step(i) => AdvanceKeeps(c, s, i);
    case Abandon(i) => AbandonKeeps(c, s, i);
    case RaiseBy(_) => EnvironmentKeeps(c, s, a);
    case MoveGate(_) => EnvironmentKeeps(c, s, a);
    case Invoke(i, op) => InvokeKeeps(c, s, i, op);
    case EnableDrain(i) => EnableDrainKeeps(c, s, i);
    case WriteByte(i, at, value) => WriteByteKeeps(c, s, i, at, value);
  }

  lemma {:induction false} RunKeeps(c: Config, s: Pool, acts: seq<Action>)
    requires Inv(c, s) && Run(c, s, acts)
    ensures Inv(c, After(c, s, acts))
    decreases |acts|
  {
    if |acts| > 0 {
      ActionKeeps(c, s, acts[0]);
      RunKeeps(c, Apply(c, s, acts[0]), acts[1..]);
    }
  }

  lemma {:induction false} FreshWindow(c: Config, roles: seq<Role>, t: nat)
    requires Ring(c.n) && c.n > 0 && t < c.n
    ensures Window(c.n, Initial(c, roles).free, t) && Window(c.n, Initial(c, roles).ready, t)
  {
    SlotSplit(c.n, t);
    EntryParts(c.n, t, t);
    EntryParts(c.n, t, 0);
    SlotUnique(c.n, t, t);
    SmallSlot(c.n, t);
  }

  lemma {:induction false} SmallSlot(n: nat, t: nat)
    requires Ring(n) && t < n
    ensures Slot(n, t) == t && Cycle(n, t) == 0
  {
    SlotSplit(n, t);
    DivModUnique(t, n, 0, t);
  }

  /** Construction establishes the invariant for every capacity the geometry
      admits and every number of endpoints. */
  lemma {:induction false} InitialHolds(c: Config, roles: seq<Role>)
    requires Ring(c.n) && c.n > 0 && c.n <= Limit(c.n)
    ensures Inv(c, Initial(c, roles))
  {
    var s := Initial(c, roles);
    forall t | 0 <= t < c.n ensures Window(c.n, s.free, t) && Window(c.n, s.ready, t) {
      FreshWindow(c, roles, t);
    }
    forall t | s.free.head <= t < |s.free.log| ensures FreeMember(s, t) {
    }
    forall b | 0 <= b < c.n ensures BlockOk(c, s, b) {
    }
    forall i | 0 <= i < |s.conns| ensures ConnOk(c, s, i) {
    }
    assert s.published[..s.ready.head - c.n] == [];
  }
}
