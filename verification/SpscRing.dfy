/** The SPSC layout as a transition system: the two endpoints of src/elite_spsc.c
    under any interleaving, with the admission gate moving beneath them.

    One action is at most one shared atomic of one endpoint plus its private work,
    the granularity of formal/models/spsc.py.  An acquire load of the peer's cursor
    may return any value that cursor has had since this endpoint's last load.  A
    transfer notifies the peer after its store, and the notification may fail; a
    channel without wait words is one whose notifications never do.  */
module SpscRing {
  import opened Words
  import opened NcqQueue
  import opened Crc
  import opened Core

  datatype Pc =
    | Idle
    | CheckGate(op: Op)
    | CheckFailure(op: Op)
    | LoadPeer
    | FillSlot
    | ReadSlot
    | Describe(length: nat, mtype: nat, id: nat)
    | StorePublished
    | EndWrite
    | EndRead
    | StoreReclaimed
    | Notify
    | RaiseFailure(reason: nat)
    | RequestRetire

  /** `offer` is auxiliary: the message the commit call in progress names. */
  datatype Side = Side(role: Role, pc: Pc, cursor: nat, cached: nat, owned: Own, block: nat, epoch: nat,
                       serial: nat, poisoned: bool, drain: bool, span: Message, result: Status, offer: Message)

  /** `history`, `reserved` and `aborted` are auxiliary: the messages in publication
      order, and the slot epochs every reservation and every abort used. */
  datatype Channel = Channel(published: nat, reclaimed: nat, producer: Side, consumer: Side,
                             desc: seq<Desc>, payload: seq<seq<Byte>>, gate: nat, failure: nat,
                             history: seq<Message>, reserved: seq<Use>, aborted: seq<Use>)

  function The(s: Channel, r: Role): Side { if r.Producer? then s.producer else s.consumer }

  function With(s: Channel, r: Role, k: Side): Channel {
    if r.Producer? then s.(producer := k) else s.(consumer := k)
  }

  /** The cursor word an endpoint reads. */
  function PeerWord(s: Channel, r: Role): nat { if r.Producer? then s.reclaimed else s.published }

  function UseOf(k: Side): Use { Use(k.block, k.epoch) }

  // ------------------------------------------------------------- local transitions

  function Respond(k: Side, r: Status): Side { k.(pc := Idle, result := r) }

  function Fail(k: Side, r: Status, reason: nat): Side {
    k.(poisoned := true, result := r, pc := RaiseFailure(reason))
  }

  function Goto(k: Side, pc: Pc): Side { k.(pc := pc) }

  /** el_spsc_reserve as far as its cached cursor decides. */
  function AtReserve(c: Config, k: Side): Side {
    if k.cursor >= Limit(c.n) then Fail(k, CounterLimit, FAILURE_COUNTER)
    else if k.cached > k.cursor then Fail(k, Integrity, FAILURE_PROTOCOL)
    else if k.cursor - k.cached >= c.n then Goto(k, LoadPeer)
    else Goto(k, FillSlot)
  }

  /** el_spsc_borrow once it has a cursor of the producer. */
  function AtSeen(c: Config, k: Side): Side {
    if k.cached < k.cursor || k.cached > Limit(c.n) || k.cached - k.cursor > c.n then
      Fail(k, Integrity, FAILURE_PROTOCOL)
    else if k.cached == k.cursor then Respond(k, NoData)
    else if k.cursor >= Limit(c.n) then Fail(k, CounterLimit, FAILURE_COUNTER)
    else Goto(k, ReadSlot)
  }

  /** A call that passed its admission check. */
  function Admit(c: Config, k: Side, op: Op): Side {
    match op
    case Reserve =>
      if k.serial == U64 - 1 then Fail(k, CounterLimit, FAILURE_COUNTER) else AtReserve(c, k)
    case Borrow =>
      if k.serial == U64 - 1 then Fail(k, CounterLimit, FAILURE_COUNTER)
      else if k.cached <= k.cursor then Goto(k, LoadPeer)
      else AtSeen(c, k)
    case Commit(length, mtype, id) => Goto(k, Describe(length, mtype, id))
    case Abort => Goto(k, EndWrite)
    case Release => Goto(k, EndRead)
  }

  function AtCheckGate(c: Config, k: Side, op: Op, gate: nat): Side {
    if !GateAdmits(k.drain, op, gate) then Respond(k, Retired)
    else if Returning(op) || gate == RETIRE_REQUESTED then Goto(k, CheckFailure(op))
    else Admit(c, k, op)
  }

  function AtCheckFailure(c: Config, k: Side, op: Op, failure: nat): Side {
    if Benign(failure) then Admit(c, k, op) else Respond(k, Retired)
  }

  /** The acquire load of the peer's cursor and the branch on it. */
  function AtLoadPeer(c: Config, k: Side, seen: nat): Side {
    var k := k.(cached := seen);
    if k.role.Consumer? then AtSeen(c, k)
    else if seen > k.cursor then Fail(k, Integrity, FAILURE_PROTOCOL)
    else if k.cursor - seen >= c.n then Respond(k, NoCapacity)
    else Goto(k, FillSlot)
  }

  /** The slot a private step works on. */
  function SlotOf(c: Config, k: Side): nat
    requires c.n > 0
  {
    if k.pc.FillSlot? || k.pc.ReadSlot? then Slot(c.n, k.cursor) else k.block
  }

  function AtFillSlot(c: Config, k: Side, b: nat, d: Desc): (Side, Desc) {
    if d.epoch >= EPOCH_CEILING then (Fail(k, CounterLimit, FAILURE_COUNTER), d)
    else
      (Respond(k, Ok).(owned := WriteToken, block := b, epoch := d.epoch + 1, serial := k.serial + 1),
       d.(epoch := d.epoch + 1))
  }

  /** el_begin_token and el_read_metadata. */
  function AtReadSlot(c: Config, k: Side, b: nat, d: Desc, bytes: seq<Byte>): Side {
    var k := k.(owned := ReadToken, block := b, epoch := d.epoch, serial := k.serial + 1);
    if d.epoch == 0 || d.epoch > EPOCH_CEILING || d.length > c.maxPayload
      || d.checksum != ChecksumOf(c, Take(bytes, d.length))
    then Fail(k, Integrity, FAILURE_INTEGRITY)
    else Respond(k, Ok).(span := MessageOf(d, bytes))
  }

  function AtDescribe(c: Config, k: Side, d: Desc, bytes: seq<Byte>, length: nat, mtype: nat, id: nat): (Side, Desc) {
    if d.epoch != k.epoch then (Fail(k, Integrity, FAILURE_INTEGRITY), d)
    else
      (Goto(k, StorePublished),
       d.(length := length, mtype := mtype, id := id, checksum := ChecksumOf(c, Take(bytes, length))))
  }

  /** A step on the slot the endpoint owns or is about to own. */
  function AtSlot(c: Config, k: Side, b: nat, d: Desc, bytes: seq<Byte>): (Side, Desc) {
    match k.pc
    case FillSlot => AtFillSlot(c, k, b, d)
    case ReadSlot => (AtReadSlot(c, k, b, d, bytes), d)
    case Describe(length, mtype, id) => AtDescribe(c, k, d, bytes, length, mtype, id)
    case EndWrite =>
      (if d.epoch != k.epoch then Fail(k, Integrity, FAILURE_INTEGRITY)
       else Respond(k, Ok).(owned := NoToken), d)
    case EndRead =>
      (if d.epoch != k.epoch then Fail(k, Integrity, FAILURE_INTEGRITY) else Goto(k, StoreReclaimed), d)
    case _ => (k, d)
  }

  predicate SlotPc(pc: Pc) { pc.FillSlot? || pc.ReadSlot? || pc.Describe? || pc.EndWrite? || pc.EndRead? }

  /** The call past its release store: local bookkeeping, then the peer is notified. */
  function Stored(k: Side): Side {
    k.(cursor := Inc(k.cursor), owned := NoToken, pc := Notify)
  }

  /** el_notify_connection's answer is all that is left to decide. */
  function AtNotify(k: Side, failed: bool): Side { Respond(k, if failed then OsError else Ok) }

  function AtPrivate(c: Config, s: Channel, r: Role): Channel
    requires c.n > 0
  {
    var k := The(s, r);
    var b := SlotOf(c, k);
    if b < |s.desc| && b < |s.payload| then
      var (k', d') := AtSlot(c, k, b, s.desc[b], s.payload[b]);
      With(s, r, k').(
        desc := s.desc[b := d'],
        reserved := if k.pc.FillSlot? && k'.owned.WriteToken? then s.reserved + [UseOf(k')] else s.reserved,
        aborted := if k.pc.EndWrite? && k'.owned.NoToken? then s.aborted + [UseOf(k)] else s.aborted)
    else s
  }

  function AtStorePublished(s: Channel): Channel {
    var k := s.producer;
    if k.block < |s.desc| && k.block < |s.payload| then
      s.(published := Inc(k.cursor), producer := Stored(k),
         history := s.history + [MessageOf(s.desc[k.block], s.payload[k.block])])
    else s
  }

  /** One step of an endpoint inside a call, its peer load excepted. */
  function Advance(c: Config, s: Channel, r: Role): Channel
    requires c.n > 0
  {
    var k := The(s, r);
    match k.pc
    case Idle => s
    case LoadPeer => s
    case Notify => s
    case CheckGate(op) => With(s, r, AtCheckGate(c, k, op, s.gate))
    case CheckFailure(op) => With(s, r, AtCheckFailure(c, k, op, s.failure))
    case StorePublished => AtStorePublished(s)
    case StoreReclaimed => s.(reclaimed := Inc(s.consumer.cursor), consumer := Stored(s.consumer))
    case RaiseFailure(reason) =>
      With(s.(failure := FirstReason(s.failure, reason)), r, Goto(k, RequestRetire))
    case RequestRetire => With(s.(gate := Retire(s.gate)), r, Goto(k, Idle))
    case _ => AtPrivate(c, s, r)
  }

  function HeldBytes(s: Channel, k: Side): seq<Byte> {
    if k.block < |s.payload| then s.payload[k.block] else []
  }

  function AtInvoke(c: Config, k: Side, op: Op, bytes: seq<Byte>): Side {
    var r := EntryCheck(c, k.role, k.owned, k.poisoned, op);
    if r != Ok then Respond(k, r)
    else if op.Commit? then
      Goto(k, CheckGate(op)).(offer := Message(op.length, op.mtype, op.id, k.epoch, Take(bytes, op.length)))
    else Goto(k, CheckGate(op))
  }

  datatype Action =
    | Step(r: Role)
    | Load(r: Role, seen: nat)
    | Refresh(r: Role, seen: nat)               // el_wait looks at the peer's cursor
    | Notified(r: Role, failed: bool)
    | Invoke(r: Role, op: Op)
    | WriteByte(at: nat, value: Byte)
    | EnableDrain
    | Abandon(r: Role)
    | RaiseBy(reason: nat)
    | MoveGate(gate: nat)

  predicate Enabled(c: Config, s: Channel, a: Action) {
    match a
    case Step(r) => !The(s, r).pc.Idle? && !The(s, r).pc.LoadPeer? && !The(s, r).pc.Notify?
    case Load(r, seen) => The(s, r).pc.LoadPeer? && The(s, r).cached <= seen <= PeerWord(s, r)
    case Refresh(r, seen) =>
      && The(s, r).pc.Idle? && The(s, r).owned.NoToken? && !The(s, r).poisoned
      && The(s, r).cached <= seen <= PeerWord(s, r)
    case Notified(r, failed) => The(s, r).pc.Notify?
    case Invoke(r, op) => The(s, r).pc.Idle?
    case WriteByte(at, value) =>
      && s.producer.pc.Idle? && s.producer.owned.WriteToken?
      && s.producer.block < |s.payload| && at < |s.payload[s.producer.block]|
    case EnableDrain => s.consumer.pc.Idle? && s.consumer.owned.NoToken?
    case Abandon(r) => The(s, r).pc.Idle? && !The(s, r).owned.NoToken? && s.gate >= RETIRE_REQUESTED
    case RaiseBy(reason) => 1 <= reason <= FAILURE_AUTHORITY
    case MoveGate(gate) => s.gate < gate <= SEALED
  }

  function Apply(c: Config, s: Channel, a: Action): Channel
    requires c.n > 0 && Enabled(c, s, a)
  {
    match a
    case Step(r) => Advance(c, s, r)
    case Load(r, seen) => With(s, r, AtLoadPeer(c, The(s, r), seen))
    case Refresh(r, seen) => With(s, r, The(s, r).(cached := seen))
    case Notified(r, failed) => With(s, r, AtNotify(The(s, r), failed))
    case Invoke(r, op) => With(s, r, AtInvoke(c, The(s, r), op, HeldBytes(s, The(s, r))))
    case WriteByte(at, value) =>
      s.(payload := s.payload[s.producer.block := Patch(s.payload[s.producer.block], at, value)])
    case EnableDrain => s.(consumer := s.consumer.(drain := true))
    case Abandon(r) => With(s, r, The(s, r).(owned := NoToken, poisoned := true))
    case RaiseBy(reason) => s.(failure := FirstReason(s.failure, reason))
    case MoveGate(gate) => s.(gate := gate)
  }

  function FreshSide(r: Role): Side {
    Side(r, Idle, 0, 0, NoToken, 0, 0, 0, false, false, NO_MESSAGE, Ok, NO_MESSAGE)
  }

  function Initial(c: Config): Channel {
    Channel(0, 0, FreshSide(Producer), FreshSide(Consumer),
      seq(c.n, i => Desc(0, 0, 0, 0, Zeros(64), 0)), seq(c.n, i => ClearBytes(c.maxPayload)),
      READY, 0, [], [], [])
  }

  ghost predicate Run(c: Config, s: Channel, acts: seq<Action>)
    requires c.n > 0
    decreases |acts|
  {
    |acts| == 0 || (Enabled(c, s, acts[0]) && Run(c, Apply(c, s, acts[0]), acts[1..]))
  }

  ghost function After(c: Config, s: Channel, acts: seq<Action>): Channel
    requires c.n > 0 && Run(c, s, acts)
    decreases |acts|
  {
    if |acts| == 0 then s else After(c, Apply(c, s, acts[0]), acts[1..])
  }

  // --------------------------------------------------------------------- invariant

  /** Cursors are the words they are copied to; caches lag and never lead. */
  predicate Counters(c: Config, s: Channel) {
    && s.reclaimed <= s.published <= s.reclaimed + c.n
    && s.published <= Limit(c.n)
    && |s.history| == s.published
    && s.producer.cursor == s.published && s.consumer.cursor == s.reclaimed
    && s.producer.cached <= s.reclaimed <= s.consumer.cached <= s.published <= s.producer.cached + c.n
  }

  /** What a program counter says of its own endpoint. */
  predicate PcOk(c: Config, k: Side) {
    && k.result != Integrity && k.serial <= U64 - 1
    && k.owned != (if k.role.Producer? then ReadToken else WriteToken)
    && match k.pc
       case Idle => true
       case CheckGate(op) => EntryCheck(c, k.role, k.owned, k.poisoned, op) == Ok
       case CheckFailure(op) => EntryCheck(c, k.role, k.owned, k.poisoned, op) == Ok
       case LoadPeer =>
         && !k.poisoned && k.owned.NoToken? && k.serial < U64 - 1
         && (k.role.Producer? ==> k.cursor < Limit(c.n))
       case FillSlot =>
         && k.role.Producer? && !k.poisoned && k.owned.NoToken? && k.serial < U64 - 1
         && k.cursor < Limit(c.n) && k.cursor < k.cached + c.n
       case ReadSlot =>
         k.role.Consumer? && !k.poisoned && k.owned.NoToken? && k.serial < U64 - 1 && k.cursor < k.cached
       case Describe(length, _, _) =>
         k.role.Producer? && !k.poisoned && k.owned.WriteToken? && length <= c.maxPayload
       case StorePublished => k.role.Producer? && !k.poisoned && k.owned.WriteToken?
       case EndWrite => k.role.Producer? && !k.poisoned && k.owned.WriteToken?
       case EndRead => k.role.Consumer? && !k.poisoned && k.owned.ReadToken?
       case StoreReclaimed => k.role.Consumer? && !k.poisoned && k.owned.ReadToken?
       case Notify => !k.poisoned && k.owned.NoToken?
       case RaiseFailure(reason) => k.poisoned && 1 <= reason <= FAILURE_AUTHORITY
       case RequestRetire => k.poisoned
  }

  predicate DescribedOk(c: Config, d: Desc, bytes: seq<Byte>) {
    && 1 <= d.epoch && d.length <= c.maxPayload
    && d.checksum == ChecksumOf(c, Take(bytes, d.length))
  }

  predicate OfferOk(k: Side, op: Op, bytes: seq<Byte>) {
    op.Commit? ==> k.offer == Message(op.length, op.mtype, op.id, k.epoch, Take(bytes, op.length))
  }

  /** A written slot: its epoch is this reservation's, and no earlier use of the slot
      has it. */
  predicate WritingOk(c: Config, k: Side, d: Desc, bytes: seq<Byte>) {
    && d.epoch == k.epoch >= 1
    && match k.pc
       case CheckGate(op) => OfferOk(k, op, bytes)
       case CheckFailure(op) => OfferOk(k, op, bytes)
       case Describe(length, mtype, id) => OfferOk(k, Commit(length, mtype, id), bytes)
       case StorePublished => DescribedOk(c, d, bytes) && MessageOf(d, bytes) == k.offer
       case _ => true
  }

  predicate ProducerOk(c: Config, s: Channel)
    requires c.n > 0
  {
    var k := s.producer;
    && k.role.Producer? && PcOk(c, k)
    && (k.owned.WriteToken? ==>
          && k.block == Slot(c.n, k.cursor) && k.block < |s.desc| && k.block < |s.payload|
          && k.cursor < Limit(c.n) && k.cursor < k.cached + c.n
          && WritingOk(c, k, s.desc[k.block], s.payload[k.block]))
  }

  predicate ConsumerOk(c: Config, s: Channel)
    requires c.n > 0
  {
    var k := s.consumer;
    && k.role.Consumer? && PcOk(c, k)
    && (k.owned.ReadToken? ==>
          && k.block == Slot(c.n, k.cursor) && k.block < |s.desc|
          && k.cursor < k.cached && s.desc[k.block].epoch == k.epoch
          && k.cursor < |s.history| && k.span == s.history[k.cursor])
  }

  /** An unreclaimed message is in its slot, whole. */
  predicate Live(c: Config, s: Channel, t: nat)
    requires c.n > 0
  {
    var b := Slot(c.n, t);
    && b < |s.desc| && b < |s.payload| && t < |s.history|
    && DescribedOk(c, s.desc[b], s.payload[b])
    && MessageOf(s.desc[b], s.payload[b]) == s.history[t]
  }

  ghost predicate Memory(c: Config, s: Channel) {
    && c.n > 0 && |s.desc| == |s.payload| == c.n
    && (forall b :: 0 <= b < c.n ==> |s.payload[b]| == c.maxPayload && s.desc[b].epoch <= EPOCH_CEILING)
    && forall t :: s.reclaimed <= t < s.published ==> Live(c, s, t)
  }

  /** The slot and epoch of every publication. */
  function HistoryUses(c: Config, history: seq<Message>): (xs: seq<Use>)
    requires c.n > 0
    ensures |xs| == |history|
    ensures forall t :: 0 <= t < |xs| ==> xs[t] == Use(Slot(c.n, t), history[t].epoch)
  {
    seq(|history|, t requires 0 <= t < |history| => Use(Slot(c.n, t), history[t].epoch))
  }

  predicate Past(s: Channel, u: Use) { u.block < |s.desc| && u.epoch <= s.desc[u.block].epoch }

  /** Every use of the slot being written is over, at a lower epoch. */
  predicate Below(xs: seq<Use>, u: Use) {
    forall i :: 0 <= i < |xs| && xs[i].block == u.block ==> xs[i].epoch < u.epoch
  }

  ghost predicate Uses(c: Config, s: Channel)
    requires c.n > 0
  {
    var published := HistoryUses(c, s.history);
    && Rising(s.reserved) && Rising(published) && Rising(s.aborted)
    && (forall u :: u in s.reserved ==> Past(s, u))
    && (forall u :: u in published ==> u in s.reserved && u !in s.aborted)
    && (forall u :: u in s.aborted ==> u in s.reserved)
    && (s.producer.owned.WriteToken? ==>
          var u := UseOf(s.producer);
          u in s.reserved && Below(published, u) && Below(s.aborted, u))
  }

  ghost predicate Inv(c: Config, s: Channel) {
    && Ring(c.n) && c.n > 0 && c.n <= Limit(c.n)
    && READY <= s.gate <= SEALED
    && Counters(c, s) && ProducerOk(c, s) && ConsumerOk(c, s) && Memory(c, s) && Uses(c, s)
  }

  // --------------------------------------------------------------- every action keeps

  /** The slot being written, or about to be, is the slot of no unreclaimed message. */
  lemma {:induction false} WriterApart(c: Config, s: Channel, t: nat)
    requires Inv(c, s) && s.published < s.reclaimed + c.n && s.reclaimed <= t < s.published
    ensures Slot(c.n, s.published) < c.n && Slot(c.n, t) < c.n && Slot(c.n, t) != Slot(c.n, s.published)
  {
    SlotSplit(c.n, s.published);
    SlotSplit(c.n, t);
    if Slot(c.n, t) == Slot(c.n, s.published) { SlotUnique(c.n, t, s.published); }
  }

  /** A step that moves only program counters and the like. */
  ghost predicate Quiet(s: Channel, s': Channel, r: Role) {
    var k, k' := The(s, r), The(s', r);
    && s' == With(s, r, k').(gate := s'.gate, failure := s'.failure)
    && k' == k.(pc := k'.pc, poisoned := k'.poisoned, drain := k'.drain, result := k'.result, offer := k'.offer,
                cached := k'.cached)
    && k.cached <= k'.cached <= PeerWord(s, r)
  }

  predicate WritesSoundly(c: Config, s: Channel, k: Side) {
    k.block < |s.desc| && k.block < |s.payload| && WritingOk(c, k, s.desc[k.block], s.payload[k.block])
  }

  lemma {:induction false} QuietKeeps(c: Config, s: Channel, s': Channel, r: Role)
    requires Inv(c, s) && Quiet(s, s', r) && READY <= s'.gate <= SEALED
    requires PcOk(c, The(s', r))
    requires r.Producer? && s.producer.owned.WriteToken? ==> WritesSoundly(c, s, s'.producer)
    ensures Inv(c, s')
  {
    forall t | s'.reclaimed <= t < s'.published ensures Live(c, s', t) { assert Live(c, s, t); }
    forall u | u in s'.reserved ensures Past(s', u) { assert Past(s, u); }
  }

  /** The admission check moves the program counter and, when it fails, poisons. */
  predicate Decides(c: Config, k: Side, k': Side, d: Desc, bytes: seq<Byte>) {
    && k' == k.(pc := k'.pc, poisoned := k'.poisoned, result := k'.result)
    && PcOk(c, k') && (WritingOk(c, k, d, bytes) ==> WritingOk(c, k', d, bytes))
  }

  predicate CacheInRange(c: Config, k: Side) {
    if k.role.Producer? then k.cached <= k.cursor <= k.cached + c.n
    else k.cursor <= k.cached <= Limit(c.n) && k.cached <= k.cursor + c.n
  }

  lemma {:induction false} AdmitOk(c: Config, k: Side, op: Op, d: Desc, bytes: seq<Byte>)
    requires PcOk(c, k) && CacheInRange(c, k) && (k.pc == CheckGate(op) || k.pc == CheckFailure(op))
    ensures Decides(c, k, Admit(c, k, op), d, bytes)
  {
  }

  lemma {:induction false} AdmissionOk(c: Config, k: Side, op: Op, gate: nat, failure: nat, d: Desc, bytes: seq<Byte>)
    requires PcOk(c, k) && CacheInRange(c, k)
    ensures k.pc == CheckGate(op) ==> Decides(c, k, AtCheckGate(c, k, op, gate), d, bytes)
    ensures k.pc == CheckFailure(op) ==> Decides(c, k, AtCheckFailure(c, k, op, failure), d, bytes)
  {
    if k.pc == CheckGate(op) || k.pc == CheckFailure(op) { AdmitOk(c, k, op, d, bytes); }
  }

  lemma {:induction false} DecisionKeeps(c: Config, s: Channel, r: Role, k': Side, d: Desc)
    requires Inv(c, s) && Decides(c, The(s, r), k', d, HeldBytes(s, The(s, r)))
    requires The(s, r).block < |s.desc| ==> d == s.desc[The(s, r).block]
    ensures Inv(c, With(s, r, k'))
  {
    QuietKeeps(c, s, With(s, r, k'), r);
  }

  lemma {:induction false} GateStepKeeps(c: Config, s: Channel, r: Role)
    requires Inv(c, s) && (The(s, r).pc.CheckGate? || The(s, r).pc.CheckFailure?)
    ensures Inv(c, Advance(c, s, r))
  {
    var k, k' := The(s, r), The(Advance(c, s, r), r);
    var d := if k.block < |s.desc| then s.desc[k.block] else s.desc[0];
    AdmissionOk(c, k, k.pc.op, s.gate, s.failure, d, HeldBytes(s, k));
    DecisionKeeps(c, s, r, k', d);
  }

  lemma {:induction false} FailStepKeeps(c: Config, s: Channel, r: Role)
    requires Inv(c, s) && (The(s, r).pc.RaiseFailure? || The(s, r).pc.RequestRetire?)
    ensures Inv(c, Advance(c, s, r))
  {
    QuietKeeps(c, s, Advance(c, s, r), r);
  }

  lemma {:induction false} LoadOk(c: Config, k: Side, seen: nat)
    requires PcOk(c, k) && k.pc.LoadPeer? && k.cached <= seen && CacheInRange(c, k.(cached := seen))
    ensures var k' := AtLoadPeer(c, k, seen);
      PcOk(c, k') && k' == k.(pc := k'.pc, result := k'.result, cached := seen)
  {
  }

  lemma {:induction false} LoadKeeps(c: Config, s: Channel, r: Role, seen: nat)
    requires Inv(c, s) && Enabled(c, s, Load(r, seen))
    ensures Inv(c, Apply(c, s, Load(r, seen)))
  {
    LoadOk(c, The(s, r), seen);
    QuietKeeps(c, s, Apply(c, s, Load(r, seen)), r);
  }

  // ------------------------------------------------------- steps of the writer's slot

  /** The slot past the last publication is written; nothing else in memory is. */
  ghost predicate WritesSlot(c: Config, s: Channel, s': Channel, b: nat)
    requires c.n > 0
  {
    && b == Slot(c.n, s.published) < c.n && s.published < s.reclaimed + c.n
    && s'.published == s.published && s'.reclaimed == s.reclaimed && s'.history == s.history
    && |s.desc| == |s.payload| == |s'.desc| == |s'.payload| == c.n
    && (forall j :: 0 <= j < c.n && j != b ==> s'.desc[j] == s.desc[j] && s'.payload[j] == s.payload[j])
    && |s'.payload[b]| == c.maxPayload && s'.desc[b].epoch <= EPOCH_CEILING
  }

  lemma {:induction false} WriteKeepsMemory(c: Config, s: Channel, s': Channel, b: nat)
    requires Inv(c, s) && WritesSlot(c, s, s', b)
    ensures Memory(c, s')
  {
    forall t | s'.reclaimed <= t < s'.published ensures Live(c, s', t) {
      WriterApart(c, s, t);
      assert Live(c, s, t);
    }
  }

  lemma {:induction false} WriteKeepsReader(c: Config, s: Channel, s': Channel, b: nat)
    requires Inv(c, s) && WritesSlot(c, s, s', b) && s'.consumer == s.consumer
    ensures ConsumerOk(c, s')
  {
    if s.consumer.owned.ReadToken? { WriterApart(c, s, s.reclaimed); }
  }

  lemma {:induction false} FillKeeps(c: Config, s: Channel)
    requires Inv(c, s) && s.producer.pc.FillSlot?
    ensures Inv(c, Advance(c, s, Producer))
  {
    var s', k := Advance(c, s, Producer), s.producer;
    var b := Slot(c.n, k.cursor);
    SlotSplit(c.n, k.cursor);
    if s.desc[b].epoch >= EPOCH_CEILING {
      assert s'.desc == s.desc;
      QuietKeeps(c, s, s', Producer);
    } else {
      FillEffect(c, s, b);
      WriteKeepsMemory(c, s, s', b);
      WriteKeepsReader(c, s, s', b);
      FillUses(c, s, s', b);
    }
  }

  lemma {:induction false} FillEffect(c: Config, s: Channel, b: nat)
    requires Inv(c, s) && s.producer.pc.FillSlot? && b == Slot(c.n, s.published) < c.n
    requires s.desc[b].epoch < EPOCH_CEILING
    ensures var s' := Advance(c, s, Producer);
      && WritesSlot(c, s, s', b) && Counters(c, s') && ProducerOk(c, s')
      && s'.consumer == s.consumer && s'.gate == s.gate && s'.aborted == s.aborted
      && s'.desc == s.desc[b := s'.desc[b]] && s'.desc[b].epoch == s.desc[b].epoch + 1
      && UseOf(s'.producer) == Use(b, s'.desc[b].epoch) && s'.reserved == s.reserved + [UseOf(s'.producer)]
  {
  }

  /** A fresh epoch is above every earlier one of its slot. */
  lemma {:induction false} FillUses(c: Config, s: Channel, s': Channel, b: nat)
    requires Inv(c, s) && b < c.n && |s'.desc| == c.n
    requires s'.history == s.history && s'.aborted == s.aborted
    requires s'.desc == s.desc[b := s'.desc[b]] && s'.desc[b].epoch == s.desc[b].epoch + 1
    requires UseOf(s'.producer) == Use(b, s'.desc[b].epoch) && s'.reserved == s.reserved + [UseOf(s'.producer)]
    ensures Uses(c, s')
  {
    var u, published := UseOf(s'.producer), HistoryUses(c, s.history);
    forall i | 0 <= i < |s.reserved| && s.reserved[i].block == b ensures s.reserved[i].epoch < u.epoch {
      assert Past(s, s.reserved[i]);
    }
    RisingAppend(s.reserved, u);
    forall v | v in s'.reserved ensures Past(s', v) { if v in s.reserved { assert Past(s, v); } }
    forall i | 0 <= i < |published| && published[i].block == b ensures published[i].epoch < u.epoch {
      assert published[i] in published && Past(s, published[i]);
    }
    forall i | 0 <= i < |s.aborted| && s.aborted[i].block == b ensures s.aborted[i].epoch < u.epoch {
      assert Past(s, s.aborted[i]);
    }
  }

  /** Uses are kept by whatever leaves epochs, records and the write token alone. */
  lemma {:induction false} SameUses(c: Config, s: Channel, s': Channel)
    requires c.n > 0 && Uses(c, s) && s'.history == s.history && s'.reserved == s.reserved && s'.aborted == s.aborted
    requires |s'.desc| == |s.desc| && forall b :: 0 <= b < |s.desc| ==> s'.desc[b].epoch == s.desc[b].epoch
    requires s'.producer.owned.WriteToken? ==> s.producer.owned.WriteToken? && UseOf(s'.producer) == UseOf(s.producer)
    ensures Uses(c, s')
  {
    forall u | u in s'.reserved ensures Past(s', u) { assert Past(s, u); }
  }

  lemma {:induction false} DescribeEffect(c: Config, s: Channel)
    requires Inv(c, s) && s.producer.pc.Describe?
    ensures var s' := Advance(c, s, Producer); var b := s.producer.block;
      && WritesSlot(c, s, s', b) && Counters(c, s') && ProducerOk(c, s')
      && s'.consumer == s.consumer && s'.gate == s.gate
      && s'.reserved == s.reserved && s'.aborted == s.aborted
      && s'.desc == s.desc[b := s'.desc[b]] && s'.desc[b].epoch == s.desc[b].epoch
      && s'.producer.owned == s.producer.owned && UseOf(s'.producer) == UseOf(s.producer)
  {
    SlotSplit(c.n, s.published);
  }

  lemma {:induction false} DescribeKeeps(c: Config, s: Channel)
    requires Inv(c, s) && s.producer.pc.Describe?
    ensures Inv(c, Advance(c, s, Producer))
  {
    var s', b := Advance(c, s, Producer), s.producer.block;
    DescribeEffect(c, s);
    WriteKeepsMemory(c, s, s', b);
    WriteKeepsReader(c, s, s', b);
    SameUses(c, s, s');
  }

  lemma {:induction false} WriteByteKeeps(c: Config, s: Channel, at: nat, value: Byte)
    requires Inv(c, s) && Enabled(c, s, WriteByte(at, value))
    ensures Inv(c, Apply(c, s, WriteByte(at, value)))
  {
    var s', b := Apply(c, s, WriteByte(at, value)), s.producer.block;
    SlotSplit(c.n, s.published);
    WriteKeepsMemory(c, s, s', b);
    WriteKeepsReader(c, s, s', b);
    SameUses(c, s, s');
  }

  // -------------------------------------------------------------- the cursor stores

  lemma {:induction false} BelowIsFresh(xs: seq<Use>, u: Use)
    requires Below(xs, u)
    ensures u !in xs
  {
  }

  lemma {:induction false} PublishFacts(c: Config, s: Channel)
    requires Inv(c, s) && s.producer.pc.StorePublished?
    ensures var k := s.producer;
      && s.published < s.reclaimed + c.n && s.published < Limit(c.n) && k.block == Slot(c.n, s.published) < c.n
      && MessageOf(s.desc[k.block], s.payload[k.block]) == k.offer
      && DescribedOk(c, s.desc[k.block], s.payload[k.block])
  {
    SlotSplit(c.n, s.published);
  }

  lemma {:induction false} PublishEffect(c: Config, s: Channel)
    requires Inv(c, s) && s.producer.pc.StorePublished?
    ensures var s' := Advance(c, s, Producer);
      && s' == s.(published := s.published + 1, producer := Stored(s.producer),
                  history := s.history + [s.producer.offer])
      && Counters(c, s')
  {
    PublishFacts(c, s);
  }

  lemma {:induction false} PublishSides(c: Config, s: Channel, s': Channel)
    requires Inv(c, s) && s.producer.pc.StorePublished?
    requires s' == s.(published := s.published + 1, producer := Stored(s.producer),
                      history := s.history + [s.producer.offer])
    ensures ProducerOk(c, s') && ConsumerOk(c, s')
  {
  }

  lemma {:induction false} PublishUses(c: Config, s: Channel, s': Channel)
    requires Inv(c, s) && s.producer.owned.WriteToken? && s.producer.block == Slot(c.n, s.published)
    requires s'.history == s.history + [s.producer.offer] && s.producer.offer.epoch == s.producer.epoch
    requires s'.reserved == s.reserved && s'.aborted == s.aborted && s'.desc == s.desc
    requires s'.producer.owned.NoToken?
    ensures Uses(c, s')
  {
    var u, before, after := UseOf(s.producer), HistoryUses(c, s.history), HistoryUses(c, s'.history);
    assert after == before + [u];
    RisingAppend(before, u);
    BelowIsFresh(s.aborted, u);
    forall v | v in s'.reserved ensures Past(s', v) { assert Past(s, v); }
  }

  lemma {:induction false} PublishKeeps(c: Config, s: Channel)
    requires Inv(c, s) && s.producer.pc.StorePublished?
    ensures Inv(c, Advance(c, s, Producer))
  {
    var s' := Advance(c, s, Producer);
    PublishFacts(c, s);
    PublishEffect(c, s);
    PublishSides(c, s, s');
    forall t | s'.reclaimed <= t < s'.published ensures Live(c, s', t) {
      if t < s.published { assert Live(c, s, t); }
    }
    PublishUses(c, s, s');
  }

  lemma {:induction false} AbortUses(c: Config, s: Channel, s': Channel)
    requires Inv(c, s) && s.producer.owned.WriteToken? && s'.producer.owned.NoToken?
    requires s'.history == s.history && s'.reserved == s.reserved && s'.desc == s.desc
    requires s'.aborted == s.aborted + [UseOf(s.producer)]
    ensures Uses(c, s')
  {
    var u, published := UseOf(s.producer), HistoryUses(c, s.history);
    RisingAppend(s.aborted, u);
    BelowIsFresh(published, u);
    forall v | v in s'.reserved ensures Past(s', v) { assert Past(s, v); }
  }

  lemma {:induction false} EndWriteKeeps(c: Config, s: Channel)
    requires Inv(c, s) && s.producer.pc.EndWrite?
    ensures Inv(c, Advance(c, s, Producer))
  {
    var s' := Advance(c, s, Producer);
    assert s'.desc == s.desc;
    AbortUses(c, s, s');
    forall t | s'.reclaimed <= t < s'.published ensures Live(c, s', t) { assert Live(c, s, t); }
  }

  lemma {:induction false} ReadSlotOk(c: Config, s: Channel)
    requires Inv(c, s) && s.consumer.pc.ReadSlot?
    ensures var b := Slot(c.n, s.reclaimed);
      && b < c.n && DescribedOk(c, s.desc[b], s.payload[b]) && s.desc[b].epoch <= EPOCH_CEILING
      && s.reclaimed < |s.history| && MessageOf(s.desc[b], s.payload[b]) == s.history[s.reclaimed]
  {
    assert Live(c, s, s.reclaimed);
  }

  lemma {:induction false} ReadSlotKeeps(c: Config, s: Channel)
    requires Inv(c, s) && s.consumer.pc.ReadSlot?
    ensures Inv(c, Advance(c, s, Consumer))
  {
    var s' := Advance(c, s, Consumer);
    ReadSlotOk(c, s);
    assert s'.desc == s.desc;
    SameUses(c, s, s');
    forall t | s'.reclaimed <= t < s'.published ensures Live(c, s', t) { assert Live(c, s, t); }
  }

  lemma {:induction false} EndReadKeeps(c: Config, s: Channel)
    requires Inv(c, s) && s.consumer.pc.EndRead?
    ensures Inv(c, Advance(c, s, Consumer))
  {
    var s' := Advance(c, s, Consumer);
    assert s'.desc == s.desc;
    QuietKeeps(c, s, s', Consumer);
  }

  lemma {:induction false} ReclaimEffect(c: Config, s: Channel)
    requires Inv(c, s) && s.consumer.pc.StoreReclaimed?
    ensures s.reclaimed < s.published && s.consumer.span == s.history[s.reclaimed]
    ensures Advance(c, s, Consumer) == s.(reclaimed := s.reclaimed + 1, consumer := Stored(s.consumer))
  {
  }

  lemma {:induction false} ReclaimKeeps(c: Config, s: Channel)
    requires Inv(c, s) && s.consumer.pc.StoreReclaimed?
    ensures Inv(c, Advance(c, s, Consumer))
  {
    var s' := Advance(c, s, Consumer);
    ReclaimEffect(c, s);
    SameUses(c, s, s');
    forall t | s'.reclaimed <= t < s'.published ensures Live(c, s', t) { assert Live(c, s, t); }
  }

  // -------------------------------------------------------------------- the caller

  lemma {:induction false} InvokeOk(c: Config, k: Side, op: Op, d: Desc, bytes: seq<Byte>)
    requires PcOk(c, k) && k.pc.Idle?
    ensures var k' := AtInvoke(c, k, op, bytes);
      && k' == k.(pc := k'.pc, result := k'.result, offer := k'.offer)
      && PcOk(c, k') && (WritingOk(c, k, d, bytes) ==> WritingOk(c, k', d, bytes))
  {
  }

  lemma {:induction false} InvokeKeeps(c: Config, s: Channel, r: Role, op: Op)
    requires Inv(c, s) && Enabled(c, s, Invoke(r, op))
    ensures Inv(c, Apply(c, s, Invoke(r, op)))
  {
    var k := The(s, r);
    var d := if k.block < |s.desc| then s.desc[k.block] else s.desc[0];
    InvokeOk(c, k, op, d, HeldBytes(s, k));
    QuietKeeps(c, s, Apply(c, s, Invoke(r, op)), r);
  }

  lemma {:induction false} AbandonKeeps(c: Config, s: Channel, r: Role)
    requires Inv(c, s) && Enabled(c, s, Abandon(r))
    ensures Inv(c, Apply(c, s, Abandon(r)))
  {
    var s' := Apply(c, s, Abandon(r));
    SameUses(c, s, s');
    forall t | s'.reclaimed <= t < s'.published ensures Live(c, s', t) { assert Live(c, s, t); }
  }

  /** el_wait's load of the peer's cursor leaves the cache a lagging copy. */
  lemma {:induction false} RefreshKeeps(c: Config, s: Channel, r: Role, seen: nat)
    requires Inv(c, s) && Enabled(c, s, Refresh(r, seen))
    ensures Inv(c, Apply(c, s, Refresh(r, seen)))
  {
    QuietKeeps(c, s, Apply(c, s, Refresh(r, seen)), r);
  }

  lemma {:induction false} NotifyKeeps(c: Config, s: Channel, r: Role, failed: bool)
    requires Inv(c, s) && Enabled(c, s, Notified(r, failed))
    ensures Inv(c, Apply(c, s, Notified(r, failed)))
  {
    QuietKeeps(c, s, Apply(c, s, Notified(r, failed)), r);
  }

  lemma {:induction false} RetirementKeeps(c: Config, s: Channel, a: Action)
    requires Inv(c, s) && Enabled(c, s, a) && (a.RaiseBy? || a.MoveGate?)
    ensures Inv(c, Apply(c, s, a))
  {
    QuietKeeps(c, s, Apply(c, s, a), Producer);
  }

  lemma {:induction false} AdvanceKeeps(c: Config, s: Channel, r: Role)
    requires Inv(c, s)
    ensures Inv(c, Advance(c, s, r))
  {
    match The(s, r).pc
    case Idle =>
    case LoadPeer =>
    case Notify =>
    case CheckGate(_) => GateStepKeeps(c, s, r);
    case CheckFailure(_) => GateStepKeeps(c, s, r);
    case FillSlot => FillKeeps(c, s);
    case ReadSlot => ReadSlotKeeps(c, s);
    case Describe(_, _, _) => DescribeKeeps(c, s);
    case StorePublished => PublishKeeps(c, s);
    case EndWrite => EndWriteKeeps(c, s);
    case EndRead => EndReadKeeps(c, s);
    case StoreReclaimed => ReclaimKeeps(c, s);
    case RaiseFailure(_) => FailStepKeeps(c, s, r);
    case RequestRetire => FailStepKeeps(c, s, r);
  }

  /** Every action of either endpoint, of the application and of the environment
      keeps the invariant. */
  lemma {:induction false} ActionKeeps(c: Config, s: Channel, a: Action)
    requires Inv(c, s) && Enabled(c, s, a)
    ensures Inv(c, Apply(c, s, a))
  {
    match a
    case Step(r) => AdvanceKeeps(c, s, r);
    case Load(r, seen) => LoadKeeps(c, s, r, seen);
    case Refresh(r, seen) => RefreshKeeps(c, s, r, seen);
    case Notified(r, failed) => NotifyKeeps(c, s, r, failed);
    case Invoke(r, op) => InvokeKeeps(c, s, r, op);
    case WriteByte(at, value) => WriteByteKeeps(c, s, at, value);
    case EnableDrain => QuietKeeps(c, s, Apply(c, s, a), Consumer);
    case Abandon(r) => AbandonKeeps(c, s, r);
    case RaiseBy(_) => RetirementKeeps(c, s, a);
    case MoveGate(_) => RetirementKeeps(c, s, a);
  }

  lemma {:induction false} RunKeeps(c: Config, s: Channel, acts: seq<Action>)
    requires Inv(c, s) && Run(c, s, acts)
    ensures Inv(c, After(c, s, acts))
    decreases |acts|
  {
    if |acts| > 0 {
      ActionKeeps(c, s, acts[0]);
      RunKeeps(c, Apply(c, s, acts[0]), acts[1..]);
    }
  }

  lemma {:induction false} InitialHolds(c: Config)
    requires Admitted(c)
    ensures Inv(c, Initial(c))
  {
  }
}
