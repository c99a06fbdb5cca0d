/** What the SPSC channel promises in every run: a bounded FIFO whose messages are
    the commits in order, slot epochs that never repeat, and at most one cursor
    store per endpoint once the generation is quarantined.  */
module SpscTheorems {
  import opened Words
  import opened NcqQueue
  import opened Crc
  import opened Core
  import opened SpscRing

  ghost predicate Reachable(c: Config, s: Channel)
    requires c.n > 0
  {
    exists acts: seq<Action> :: Run(c, Initial(c), acts) && After(c, Initial(c), acts) == s
  }

  lemma {:induction false} ReachableInv(c: Config, s: Channel)
    requires Admitted(c) && Reachable(c, s)
    ensures Inv(c, s)
  {
    InitialHolds(c);
    var acts: seq<Action> :| Run(c, Initial(c), acts) && After(c, Initial(c), acts) == s;
    RunKeeps(c, Initial(c), acts);
  }

  // ------------------------------------------------------------- FIFO refinement

  /** An observation is `behind` the present by as many operations of the peer as the
      acquire load missed; with none missed it is an instant when the channel was
      empty, or full. */
  datatype Event = Published(m: Message) | Reclaimed(m: Message) | SawEmpty(behind: nat) | SawFull(behind: nat) | Quiet

  function Sighting(c: Config, s: Channel, r: Role, seen: nat): Event
    requires seen <= PeerWord(s, r)
  {
    if r.Producer? && s.producer.cursor >= seen + c.n then SawFull(s.reclaimed - seen)
    else if r.Consumer? && s.consumer.cursor >= seen then SawEmpty(s.published - seen)
    else Event.Quiet
  }

  function EventOf(c: Config, s: Channel, a: Action): Event
    requires c.n > 0 && Enabled(c, s, a)
  {
    match a
    case Step(Producer) => if s.producer.pc.StorePublished? then Published(s.producer.offer) else Event.Quiet
    case Step(Consumer) => if s.consumer.pc.StoreReclaimed? then Reclaimed(s.consumer.span) else Event.Quiet
    case Load(r, seen) => Sighting(c, s, r, seen)
    case Refresh(r, seen) => Sighting(c, s, r, seen)
    case _ => Event.Quiet
  }

  /** A FIFO of at most n messages. */
  ghost predicate FifoStep(n: nat, f: seq<Message>, ev: Event, f': seq<Message>) {
    && |f| <= n && |f'| <= n
    && match ev
       case Published(m) => f' == f + [m]
       case Reclaimed(m) => f != [] && m == f[0] && f' == f[1..]
       case SawEmpty(behind) => |f| == behind && f' == f
       case SawFull(behind) => |f| + behind == n && f' == f
       case Quiet => f' == f
  }

  function Contents(s: Channel): seq<Message>
    requires s.reclaimed <= |s.history|
  {
    s.history[s.reclaimed..]
  }

  /** Every private step leaves cursors and history alone. */
  lemma {:induction false} PlainStep(c: Config, s: Channel, r: Role)
    requires Inv(c, s) && !The(s, r).pc.StorePublished? && !The(s, r).pc.StoreReclaimed?
    ensures var s' := Advance(c, s, r);
      && s'.published == s.published && s'.reclaimed == s.reclaimed && s'.history == s.history
      && The(s', if r.Producer? then Consumer else Producer) == The(s, if r.Producer? then Consumer else Producer)
  {
  }

  lemma {:induction false} PublishAppends(c: Config, s: Channel)
    requires Inv(c, s) && s.producer.pc.StorePublished?
    ensures var s' := Advance(c, s, Producer);
      s'.reclaimed <= |s'.history| && Contents(s') == Contents(s) + [s.producer.offer] && |Contents(s')| <= c.n
  {
    PublishEffect(c, s);
  }

  lemma {:induction false} ReclaimPops(c: Config, s: Channel)
    requires Inv(c, s) && s.consumer.pc.StoreReclaimed?
    ensures var s' := Advance(c, s, Consumer);
      && s'.reclaimed <= |s'.history| && Contents(s) != [] && s.consumer.span == Contents(s)[0]
      && Contents(s') == Contents(s)[1..]
  {
    ReclaimEffect(c, s);
    DropNext(s.history, s.reclaimed);
  }

  lemma {:induction false} StepRefines(c: Config, s: Channel, r: Role)
    requires Inv(c, s) && Enabled(c, s, Step(r)) && Advance(c, s, r).reclaimed <= |Advance(c, s, r).history|
    ensures FifoStep(c.n, Contents(s), EventOf(c, s, Step(r)), Contents(Advance(c, s, r)))
  {
    if r.Producer? && s.producer.pc.StorePublished? {
      PublishAppends(c, s);
    } else if r.Consumer? && s.consumer.pc.StoreReclaimed? {
      ReclaimPops(c, s);
    } else {
      PlainStep(c, s, r);
    }
  }

  /** Each action is one step of an atomic bounded FIFO: the release store of
      `published` appends the offered message, the release store of `reclaimed` removes
      the one on loan, and everything else changes nothing. */
  lemma {:induction false} ActionRefines(c: Config, s: Channel, a: Action)
    requires Inv(c, s) && Enabled(c, s, a)
    ensures Inv(c, Apply(c, s, a))
    ensures FifoStep(c.n, Contents(s), EventOf(c, s, a), Contents(Apply(c, s, a)))
  {
    ActionKeeps(c, s, a);
    if a.Step? { StepRefines(c, s, a.r); }
  }

  ghost function Trace(c: Config, s: Channel, acts: seq<Action>): seq<Event>
    requires c.n > 0 && Run(c, s, acts)
    decreases |acts|
  {
    if |acts| == 0 then [] else [EventOf(c, s, acts[0])] + Trace(c, Apply(c, s, acts[0]), acts[1..])
  }

  ghost predicate FifoRun(n: nat, f: seq<Message>, evs: seq<Event>, f': seq<Message>)
    decreases |evs|
  {
    if |evs| == 0 then f == f'
    else exists g :: FifoStep(n, f, evs[0], g) && FifoRun(n, g, evs[1..], f')
  }

  lemma {:induction false} RunRefines(c: Config, s: Channel, acts: seq<Action>)
    requires Inv(c, s) && Run(c, s, acts)
    ensures Inv(c, After(c, s, acts))
    ensures FifoRun(c.n, Contents(s), Trace(c, s, acts), Contents(After(c, s, acts)))
    decreases |acts|
  {
    if |acts| > 0 {
      var s' := Apply(c, s, acts[0]);
      ActionRefines(c, s, acts[0]);
      RunRefines(c, s', acts[1..]);
      assert Trace(c, s, acts)[1..] == Trace(c, s', acts[1..]);
    }
  }

  /** Every run of the two endpoints, under every stale snapshot and every abort, is a
      run of one FIFO of capacity n that starts empty. */
  lemma {:induction false} EveryRunIsBoundedFifo(c: Config, acts: seq<Action>)
    requires Admitted(c) && Run(c, Initial(c), acts)
    ensures Inv(c, After(c, Initial(c), acts))
    ensures FifoRun(c.n, [], Trace(c, Initial(c), acts), Contents(After(c, Initial(c), acts)))
  {
    InitialHolds(c);
    RunRefines(c, Initial(c), acts);
    assert Contents(Initial(c)) == [];
  }

  // ------------------------------------------------------------------- invariants

  /** The occupancy is at most n, no cached cursor leads the word it copies, a writer's
      slot holds no unreclaimed message, and no call answers Integrity. */
  lemma {:induction false} ReachableIsSafe(c: Config, s: Channel, t: nat)
    requires Admitted(c) && Reachable(c, s)
    ensures 0 <= s.published - s.reclaimed <= c.n && s.published <= Limit(c.n)
    ensures s.producer.cached <= s.reclaimed && s.consumer.cached <= s.published
    ensures s.producer.owned.WriteToken? && s.reclaimed <= t < s.published ==> Slot(c.n, t) != s.producer.block
    ensures s.producer.result != Integrity && s.consumer.result != Integrity
  {
    ReachableInv(c, s);
    if s.producer.owned.WriteToken? && s.reclaimed <= t < s.published { WriterApart(c, s, t); }
  }

  /** While a read is granted its span is the oldest unreclaimed message, and memory
      still holds it. */
  lemma {:induction false} ReadGrant(c: Config, s: Channel)
    requires Admitted(c) && Reachable(c, s) && s.consumer.owned.ReadToken?
    ensures Inv(c, s) && Contents(s) != [] && s.consumer.span == Contents(s)[0]
    ensures s.consumer.block < |s.desc| && s.consumer.block < |s.payload|
    ensures s.consumer.span == MessageOf(s.desc[s.consumer.block], s.payload[s.consumer.block])
  {
    ReachableInv(c, s);
    assert Live(c, s, s.reclaimed);
  }

  function CommitMessage(s: Channel, op: Op): Message
    requires op.Commit?
  {
    var k := s.producer;
    Message(op.length, op.mtype, op.id, if k.block < |s.desc| then s.desc[k.block].epoch else 0,
            Take(HeldBytes(s, k), op.length))
  }

  lemma {:induction false} AdmitKeepsOffer(c: Config, k: Side, op: Op)
    ensures Admit(c, k, op).offer == k.offer
  {
  }

  lemma {:induction false} SlotKeepsOffer(c: Config, s: Channel, r: Role)
    requires c.n > 0
    ensures AtPrivate(c, s, r).producer.offer == s.producer.offer
  {
  }

  lemma {:induction false} StepKeepsOffer(c: Config, s: Channel, r: Role)
    requires c.n > 0
    ensures Advance(c, s, r).producer.offer == s.producer.offer
  {
    match The(s, r).pc
    case CheckGate(op) => AdmitKeepsOffer(c, The(s, r), op);
    case CheckFailure(op) => AdmitKeepsOffer(c, The(s, r), op);
    case FillSlot => SlotKeepsOffer(c, s, r);
    case ReadSlot => SlotKeepsOffer(c, s, r);
    case Describe(_, _, _) => SlotKeepsOffer(c, s, r);
    case EndWrite => SlotKeepsOffer(c, s, r);
    case EndRead => SlotKeepsOffer(c, s, r);
    case _ =>
  }

  /** An offer is set only by an accepted commit call of the write token's holder. */
  lemma {:induction false} OfferIsCommit(c: Config, s: Channel, a: Action)
    requires Inv(c, s) && Enabled(c, s, a) && Apply(c, s, a).producer.offer != s.producer.offer
    ensures a.Invoke? && a.r.Producer? && a.op.Commit? && a.op.length <= c.maxPayload
    ensures s.producer.owned.WriteToken? && Apply(c, s, a).producer.offer == CommitMessage(s, a.op)
  {
    if a.Step? { StepKeepsOffer(c, s, a.r); }
  }

  // -------------------------------------------------------------- one transfer call

  predicate Stores(s: Channel, a: Action, r: Role) {
    a == Step(r) && (The(s, r).pc.StorePublished? || The(s, r).pc.StoreReclaimed?)
  }

  /** Stores of its own cursor an endpoint makes along a run. */
  ghost function StoresBy(c: Config, s: Channel, acts: seq<Action>, r: Role): nat
    requires c.n > 0 && Run(c, s, acts)
    decreases |acts|
  {
    if |acts| == 0 then 0
    else (if Stores(s, acts[0], r) then 1 else 0) + StoresBy(c, Apply(c, s, acts[0]), acts[1..], r)
  }

  /** Notifications of an endpoint that fail along a run. */
  function FailedNotices(acts: seq<Action>, r: Role): nat {
    if |acts| == 0 then 0
    else (if acts[0] == Notified(r, true) then 1 else 0) + FailedNotices(acts[1..], r)
  }

  predicate NoNewCall(acts: seq<Action>, r: Role) {
    forall j :: 0 <= j < |acts| ==> !(acts[j].Invoke? && acts[j].r == r)
  }

  predicate Transferred(answer: Status) { answer.Ok? || answer.OsError? }

  /** A commit or a release, entered and not yet answered, or answered as it should,
      with the stores it made and the notifications it saw fail. */
  predicate TransferCall(k: Side, stores: nat, failures: nat) {
    match k.pc
    case CheckGate(op) => (op.Commit? || op.Release?) && stores == failures == 0
    case CheckFailure(op) => (op.Commit? || op.Release?) && stores == failures == 0
    case Describe(_, _, _) => stores == failures == 0
    case StorePublished => stores == failures == 0
    case EndRead => stores == failures == 0
    case StoreReclaimed => stores == failures == 0
    case Notify => stores == 1 && failures == 0
    case RaiseFailure(_) => !Transferred(k.result) && stores == failures == 0
    case RequestRetire => !Transferred(k.result) && stores == failures == 0
    case Idle =>
      && stores == (if Transferred(k.result) then 1 else 0)
      && failures == if k.result.OsError? then 1 else 0
    case _ => false
  }

  lemma {:induction false} TransferSlot(c: Config, s: Channel, r: Role)
    requires Inv(c, s) && (The(s, r).pc.Describe? || The(s, r).pc.EndRead?)
    ensures TransferCall(The(Advance(c, s, r), r), 0, 0)
  {
  }

  lemma {:induction false} TransferStore(c: Config, s: Channel, r: Role)
    requires Inv(c, s) && Stores(s, Step(r), r)
    ensures TransferCall(The(Advance(c, s, r), r), 1, 0)
  {
    if r.Producer? { PublishEffect(c, s); } else { ReclaimEffect(c, s); }
  }

  lemma {:induction false} TransferAdmission(c: Config, k: Side, op: Op, gate: nat, failure: nat)
    requires op.Commit? || op.Release?
    ensures TransferCall(AtCheckGate(c, k, op, gate), 0, 0) && TransferCall(AtCheckFailure(c, k, op, failure), 0, 0)
  {
  }

  lemma {:induction false} TransferElse(c: Config, s: Channel, r: Role)
    requires Inv(c, s) && Enabled(c, s, Step(r)) && TransferCall(The(s, r), 0, 0)
    requires !SlotPc(The(s, r).pc) && !Stores(s, Step(r), r)
    ensures TransferCall(The(Advance(c, s, r), r), 0, 0)
  {
    var k := The(s, r);
    match k.pc
    case CheckGate(op) => TransferAdmission(c, k, op, s.gate, s.failure);
    case CheckFailure(op) => TransferAdmission(c, k, op, s.gate, s.failure);
    case _ =>
  }

  lemma {:induction false} TransferStep(c: Config, s: Channel, r: Role)
    requires Inv(c, s) && Enabled(c, s, Step(r)) && TransferCall(The(s, r), 0, 0)
    ensures TransferCall(The(Advance(c, s, r), r), if Stores(s, Step(r), r) then 1 else 0, 0)
  {
    if Stores(s, Step(r), r) {
      TransferStore(c, s, r);
    } else if SlotPc(The(s, r).pc) {
      TransferSlot(c, s, r);
    } else {
      TransferElse(c, s, r);
    }
  }

  lemma {:induction false} ReaderStep(c: Config, s: Channel)
    requires Inv(c, s)
    ensures Advance(c, s, Consumer).producer == s.producer
  {
    match s.consumer.pc
    case ReadSlot =>
    case EndRead =>
    case _ =>
  }

  lemma {:induction false} WriterStep(c: Config, s: Channel)
    requires Inv(c, s)
    ensures Advance(c, s, Producer).consumer == s.consumer
  {
    match s.producer.pc
    case FillSlot =>
    case Describe(_, _, _) =>
    case EndWrite =>
    case StorePublished =>
    case _ =>
  }

  /** An endpoint's step changes nothing of the other endpoint. */
  lemma {:induction false} PeerStep(c: Config, s: Channel, r: Role, other: Role)
    requires Inv(c, s) && r != other
    ensures The(Advance(c, s, r), other) == The(s, other)
  {
    if r.Producer? { WriterStep(c, s); } else { ReaderStep(c, s); }
  }

  lemma {:induction false} TransferAction(c: Config, s: Channel, a: Action, r: Role, stores: nat, failures: nat)
    requires Inv(c, s) && Enabled(c, s, a) && TransferCall(The(s, r), stores, failures)
    requires !(a.Invoke? && a.r == r)
    ensures TransferCall(The(Apply(c, s, a), r), stores + (if Stores(s, a, r) then 1 else 0),
                         failures + if a == Notified(r, true) then 1 else 0)
  {
    if a.Step? {
      if a.r == r { TransferStep(c, s, r); } else { PeerStep(c, s, a.r, r); }
    }
  }

  lemma {:induction false} TransferRun(c: Config, s: Channel, acts: seq<Action>, r: Role, stores: nat, failures: nat)
    requires Inv(c, s) && Run(c, s, acts) && TransferCall(The(s, r), stores, failures) && NoNewCall(acts, r)
    ensures TransferCall(The(After(c, s, acts), r), stores + StoresBy(c, s, acts, r),
                         failures + FailedNotices(acts, r))
    decreases |acts|
  {
    if |acts| > 0 {
      ActionKeeps(c, s, acts[0]);
      TransferAction(c, s, acts[0], r, stores, failures);
      TransferRun(c, Apply(c, s, acts[0]), acts[1..], r, stores + (if Stores(s, acts[0], r) then 1 else 0),
                  failures + if acts[0] == Notified(r, true) then 1 else 0);
    }
  }

  /** The answer of a finished transfer call: it stored once or never, Ok or OsError say
      that it stored, and OsError that the notification after the store failed. */
  ghost predicate AnswersStore(answer: Status, stores: nat, failures: nat) {
    && (stores == 1 <==> Transferred(answer))
    && (answer == OsError <==> stores == 1 && failures == 1)
    && (failures == 0 ==> (stores == 1 <==> answer == Ok))
  }

  /** What the stores of a run without a new commit call did to the record of
      publications. */
  lemma {:induction false} StoresAppend(c: Config, s: Channel, acts: seq<Action>)
    requires Inv(c, s) && Run(c, s, acts) && NoNewCall(acts, Producer)
    ensures StoresBy(c, s, acts, Producer) == 0 ==> After(c, s, acts).history == s.history
    ensures StoresBy(c, s, acts, Producer) == 1 ==> After(c, s, acts).history == s.history + [s.producer.offer]
    decreases |acts|
  {
    if |acts| > 0 {
      ActionKeeps(c, s, acts[0]);
      StoreAppends(c, s, acts[0]);
      StoresAppend(c, Apply(c, s, acts[0]), acts[1..]);
    }
  }

  lemma {:induction false} StoreAppends(c: Config, s: Channel, a: Action)
    requires Inv(c, s) && Enabled(c, s, a) && !(a.Invoke? && a.r == Producer)
    ensures Apply(c, s, a).producer.offer == s.producer.offer
    ensures Apply(c, s, a).history == s.history + if Stores(s, a, Producer) then [s.producer.offer] else []
  {
    if a.Step? {
      StepKeepsOffer(c, s, a.r);
      if Stores(s, a, Producer) { PublishEffect(c, s); } else { QuietHistory(c, s, a.r); }
    }
  }

  lemma {:induction false} QuietHistory(c: Config, s: Channel, r: Role)
    requires Inv(c, s) && !Stores(s, Step(r), Producer)
    ensures Advance(c, s, r).history == s.history
  {
    if The(s, r).pc.StoreReclaimed? { ReclaimEffect(c, s); } else { PlainStep(c, s, r); }
  }

  lemma {:induction false} OfferAtCheck(c: Config, s: Channel, op: Op)
    requires Inv(c, s) && s.producer.pc == CheckGate(op) && op.Commit?
    ensures s.producer.offer == CommitMessage(s, op)
  {
  }

  /** An accepted commit call stores the published cursor at most once and, whatever
      happens meanwhile, ends having appended its message exactly if it answers Ok or
      OsError; OsError says that the peer could not be notified of the store. */
  lemma {:induction false} CommitPublishesOnce(c: Config, s: Channel, op: Op, acts: seq<Action>)
    requires Inv(c, s) && s.producer.pc == CheckGate(op) && op.Commit?
    requires Run(c, s, acts) && NoNewCall(acts, Producer)
    ensures FailedNotices(acts, Producer) <= StoresBy(c, s, acts, Producer) <= 1
    ensures var s' := After(c, s, acts); s'.producer.pc.Idle? ==>
      && AnswersStore(s'.producer.result, StoresBy(c, s, acts, Producer), FailedNotices(acts, Producer))
      && s'.history == s.history + if Transferred(s'.producer.result) then [CommitMessage(s, op)] else []
  {
    OfferAtCheck(c, s, op);
    TransferRun(c, s, acts, Producer, 0, 0);
    StoresAppend(c, s, acts);
  }

  lemma {:induction false} StoreReclaims(c: Config, s: Channel, a: Action)
    requires Inv(c, s) && Enabled(c, s, a)
    ensures Apply(c, s, a).reclaimed == s.reclaimed + if Stores(s, a, Consumer) then 1 else 0
  {
    if a.Step? {
      if Stores(s, a, Consumer) {
        ReclaimEffect(c, s);
      } else if Stores(s, a, Producer) {
        PublishEffect(c, s);
      } else {
        PlainStep(c, s, a.r);
      }
    }
  }

  lemma {:induction false} StoresReclaim(c: Config, s: Channel, acts: seq<Action>)
    requires Inv(c, s) && Run(c, s, acts)
    ensures After(c, s, acts).reclaimed == s.reclaimed + StoresBy(c, s, acts, Consumer)
    decreases |acts|
  {
    if |acts| > 0 {
      ActionKeeps(c, s, acts[0]);
      StoreReclaims(c, s, acts[0]);
      StoresReclaim(c, Apply(c, s, acts[0]), acts[1..]);
    }
  }

  /** The same of an accepted release call: its message leaves the channel exactly if
      it answers Ok or OsError. */
  lemma {:induction false} ReleaseReclaimsOnce(c: Config, s: Channel, op: Op, acts: seq<Action>)
    requires Inv(c, s) && s.consumer.pc == CheckGate(op) && op.Release?
    requires Run(c, s, acts) && NoNewCall(acts, Consumer)
    ensures FailedNotices(acts, Consumer) <= StoresBy(c, s, acts, Consumer) <= 1
    ensures var s' := After(c, s, acts); s'.consumer.pc.Idle? ==>
      && AnswersStore(s'.consumer.result, StoresBy(c, s, acts, Consumer), FailedNotices(acts, Consumer))
      && s'.reclaimed == s.reclaimed + if Transferred(s'.consumer.result) then 1 else 0
  {
    TransferRun(c, s, acts, Consumer, 0, 0);
    StoresReclaim(c, s, acts);
  }

  // ----------------------------------------------------------------------- slot epochs

  /** No slot is published twice under one epoch. */
  lemma {:induction false} EpochsNeverRepeat(c: Config, s: Channel, j: nat, k: nat)
    requires Admitted(c) && Reachable(c, s) && j < k < |s.history|
    ensures Use(Slot(c.n, j), s.history[j].epoch) != Use(Slot(c.n, k), s.history[k].epoch)
  {
    ReachableInv(c, s);
    var uses := HistoryUses(c, s.history);
    assert uses[j].block == uses[k].block ==> uses[j].epoch < uses[k].epoch;
  }

  /** Every reservation gets an epoch above all earlier ones of its slot, and a use that
      an abort ended is not the use of any published message. */
  lemma {:induction false} AbortedNeverPublished(c: Config, s: Channel, i: nat, t: nat)
    requires Admitted(c) && Reachable(c, s) && i < |s.aborted| && t < |s.history|
    ensures Rising(s.reserved) && Once(s.reserved)
    ensures s.aborted[i] in s.reserved
    ensures Use(Slot(c.n, t), s.history[t].epoch) in s.reserved
    ensures Use(Slot(c.n, t), s.history[t].epoch) != s.aborted[i]
  {
    ReachableInv(c, s);
    assert HistoryUses(c, s.history)[t] in HistoryUses(c, s.history);
  }

  predicate Later(s: Channel, s': Channel) {
    && s.published <= s'.published && s.reclaimed <= s'.reclaimed
    && s.history <= s'.history && s.reserved <= s'.reserved && s.aborted <= s'.aborted
    && |s.desc| == |s'.desc| && forall b :: 0 <= b < |s.desc| ==> s.desc[b].epoch <= s'.desc[b].epoch
  }

  lemma {:induction false} SlotIsLater(c: Config, s: Channel, r: Role)
    requires Inv(c, s) && SlotPc(The(s, r).pc)
    ensures Later(s, Advance(c, s, r))
  {
  }

  lemma {:induction false} StoreIsLater(c: Config, s: Channel, r: Role)
    requires Inv(c, s) && (The(s, r).pc.StorePublished? || The(s, r).pc.StoreReclaimed?)
    ensures Later(s, Advance(c, s, r))
  {
    if r.Producer? { PublishEffect(c, s); } else { ReclaimEffect(c, s); }
  }

  lemma {:induction false} OtherIsLater(c: Config, s: Channel, a: Action)
    requires Inv(c, s) && Enabled(c, s, a)
    requires a.Step? ==> !SlotPc(The(s, a.r).pc) && !The(s, a.r).pc.StorePublished? && !The(s, a.r).pc.StoreReclaimed?
    ensures Later(s, Apply(c, s, a))
  {
  }

  lemma {:induction false} ActionIsLater(c: Config, s: Channel, a: Action)
    requires Inv(c, s) && Enabled(c, s, a)
    ensures Later(s, Apply(c, s, a))
  {
    if a.Step? && SlotPc(The(s, a.r).pc) {
      SlotIsLater(c, s, a.r);
    } else if a.Step? && (The(s, a.r).pc.StorePublished? || The(s, a.r).pc.StoreReclaimed?) {
      StoreIsLater(c, s, a.r);
    } else {
      OtherIsLater(c, s, a);
    }
  }

  /** Along every run no cursor, no record and no slot epoch ever falls. */
  lemma {:induction false} NothingFalls(c: Config, s: Channel, acts: seq<Action>)
    requires Inv(c, s) && Run(c, s, acts)
    ensures Later(s, After(c, s, acts))
    decreases |acts|
  {
    if |acts| > 0 {
      ActionIsLater(c, s, acts[0]);
      ActionKeeps(c, s, acts[0]);
      NothingFalls(c, Apply(c, s, acts[0]), acts[1..]);
    }
  }

  // ------------------------------------------------------------------ quarantine bound

  /** Past the admission check and before the call's one cursor store. */
  predicate Armed(k: Side) {
    match k.pc
    case CheckFailure(_) => true
    case Describe(_, _, _) => true
    case StorePublished => true
    case EndRead => true
    case StoreReclaimed => true
    case _ => false
  }

  lemma {:induction false} ArmedSlot(c: Config, s: Channel, r: Role)
    requires Inv(c, s) && SlotPc(The(s, r).pc)
    ensures Advance(c, s, r).gate == s.gate
    ensures Armed(The(Advance(c, s, r), r)) ==> Armed(The(s, r))
  {
  }

  lemma {:induction false} ArmedStep(c: Config, s: Channel, r: Role)
    requires Inv(c, s) && s.gate >= QUARANTINED && !The(s, r).pc.Idle?
    ensures Advance(c, s, r).gate >= QUARANTINED
    ensures (if Stores(s, Step(r), r) then 1 else 0) + (if Armed(The(Advance(c, s, r), r)) then 1 else 0)
         <= if Armed(The(s, r)) then 1 else 0
  {
    if SlotPc(The(s, r).pc) { ArmedSlot(c, s, r); }
  }

  lemma {:induction false} ArmedAction(c: Config, s: Channel, a: Action, r: Role)
    requires Inv(c, s) && Enabled(c, s, a) && s.gate >= QUARANTINED
    ensures Apply(c, s, a).gate >= QUARANTINED
    ensures (if Stores(s, a, r) then 1 else 0) + (if Armed(The(Apply(c, s, a), r)) then 1 else 0)
         <= if Armed(The(s, r)) then 1 else 0
  {
    if a.Step? {
      ArmedStep(c, s, a.r);
      if a.r != r { PeerStep(c, s, a.r, r); }
    }
  }

  /** Once the gate is QUARANTINED an endpoint stores its cursor at most once more, and
      only in a call already past its admission check. */
  lemma {:induction false} QuarantineDrains(c: Config, s: Channel, acts: seq<Action>, r: Role)
    requires Inv(c, s) && Run(c, s, acts) && s.gate >= QUARANTINED
    ensures StoresBy(c, s, acts, r) <= if Armed(The(s, r)) then 1 else 0
    decreases |acts|
  {
    if |acts| > 0 {
      ArmedAction(c, s, acts[0], r);
      ActionKeeps(c, s, acts[0]);
      QuarantineDrains(c, Apply(c, s, acts[0]), acts[1..], r);
    }
  }
}
