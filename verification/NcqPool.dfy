/** The NCQ-SC64 message pool as a transition system.

    Every connection runs the public calls of src/elite_core.c on the two index
    queues of src/elite_mpmc_ncq.c.  One `Advance` is at most one shared atomic
    operation plus private work of one connection; any interleaving of any number
    of connections is a list of actions.  All counters are uint64_t words.  */
module NcqPool {
  import opened Words
  import opened NcqQueue
  import opened Crc
  import opened Core

  // ---------------------------------------------------------------------- state

  datatype Which = Free | Ready

  datatype Pc =
    | Idle
    | CheckGate(op: Op)
    | CheckFailure(op: Op)
    | LoadHead
    | LoadEntry(h: nat)
    | ClaimHead(h: nat, e: nat)
    | Validate
    | StoreReserved
    | Describe(length: nat, mtype: nat, id: nat)
    | StoreCommitted
    | StoreEmpty
    | LoadTail(w: Which)
    | LoadCell(w: Which, t: nat)
    | InstallCell(w: Which, t: nat, e: nat)
    | AdvanceTail(w: Which, t: nat)
    | HelpTail(w: Which, t: nat)
    | RaiseFailure(reason: nat)
    | RequestRetire

  /** `ticket` and `offer` are auxiliary: the ready ticket whose claim gave the
      read token, and the message of the commit call in progress. */
  datatype Conn = Conn(role: Role, pc: Pc, owned: Own, block: nat, epoch: nat, serial: nat,
                       poisoned: bool, drain: bool, span: Message, result: Status,
                       ticket: nat, offer: Message)

  /** Where a block's unique token is. */
  datatype Place = InFree(ticket: nat) | InReady(ticket: nat) | Held(conn: nat) | Abandoned

  /** `place`, `published` and `delivered` are auxiliary records that no branch
      reads: the token ledger, the messages in publication order, and the
      messages in claim order as the claimed block describes them. */
  datatype Pool = Pool(free: Queue, ready: Queue, desc: seq<Desc>, payload: seq<seq<Byte>>,
                       gate: nat, failure: nat, conns: seq<Conn>,
                       place: seq<Place>, published: seq<Message>, delivered: seq<Message>)

  function TheQueue(s: Pool, w: Which): Queue {
    match w case Free => s.free case Ready => s.ready
  }

  function WithQueue(s: Pool, w: Which, q: Queue): Pool {
    match w case Free => s.(free := q) case Ready => s.(ready := q)
  }

  function QueueOf(r: Role): Which {
    match r case Producer => Free case Consumer => Ready
  }

  // ------------------------------------------------------------ local transitions

  function Put(s: Pool, i: nat, k: Conn): Pool
    requires i < |s.conns|
  {
    s.(conns := s.conns[i := k])
  }

  function Respond(k: Conn, r: Status): Conn { k.(pc := Idle, result := r) }

  /** el_fail: poison the endpoint, then raise the reason and retire the gate. */
  function Fail(k: Conn, r: Status, reason: nat): Conn {
    k.(poisoned := true, result := r, pc := RaiseFailure(reason))
  }

  function Goto(k: Conn, pc: Pc): Conn { k.(pc := pc) }

  /** A call that passed its admission check. */
  function Admit(k: Conn, op: Op): Conn {
    match op
    case Reserve | Borrow =>
      if k.serial == U64 - 1 then Fail(k, CounterLimit, FAILURE_COUNTER) else Goto(k, LoadHead)
    case Commit(length, mtype, id) => Goto(k, Describe(length, mtype, id))
    case Abort | Release => Goto(k, StoreEmpty)
  }

  /** el_ready, or the gate part of el_return_allowed. */
  function AtCheckGate(k: Conn, op: Op, gate: nat): Conn {
    if !GateAdmits(k.drain, op, gate) then Respond(k, Retired)
    else if Returning(op) || gate == RETIRE_REQUESTED then Goto(k, CheckFailure(op))
    else Admit(k, op)
  }

  function AtCheckFailure(k: Conn, op: Op, failure: nat): Conn {
    if Benign(failure) then Admit(k, op) else Respond(k, Retired)
  }

  function AtLoadHead(c: Config, k: Conn, q: Queue): Conn {
    if q.head > Limit(c.n) then Fail(k, Integrity, FAILURE_PROTOCOL) else Goto(k, LoadEntry(q.head))
  }

  function AtLoadEntry(c: Config, k: Conn, q: Queue, h: nat): Conn
    requires c.n > 0
  {
    var e := Cell(c.n, q, h);
    if Current(c.n, h, e) then
      if h >= Limit(c.n) then Fail(k, CounterLimit, FAILURE_COUNTER) else Goto(k, ClaimHead(h, e))
    else if Older(c.n, h, e) then
      Respond(k, if k.role.Producer? then NoCapacity else NoData)
    else
      Goto(k, LoadHead)
  }

  function Claimed(k: Conn, b: nat, h: nat): Conn {
    k.(pc := Validate, owned := if k.role.Producer? then WriteToken else ReadToken,
       block := b, epoch := 0, serial := k.serial + 1, ticket := h)
  }

  function AtClaimHead(c: Config, s: Pool, i: nat, k: Conn, h: nat, e: nat): Pool
    requires c.n > 0 && i < |s.conns|
  {
    var w := QueueOf(k.role);
    var b := Slot(c.n, e);
    if TheQueue(s, w).head == h && b < |s.place| && b < |s.desc| && b < |s.payload| then
      var s' := WithQueue(s, w, HeadAdvance(TheQueue(s, w), h));
      Put(s', i, Claimed(k, b, h)).(
        place := s.place[b := Held(i)],
        delivered := if w.Ready? then s.delivered + [MessageOf(s.desc[b], s.payload[b])] else s.delivered)
    else
      Put(s, i, Goto(k, LoadHead))
  }

  /** el_ncq_reserve after its claim, up to the ordinary epoch store. */
  function ValidateFree(k: Conn, d: Desc): (Conn, Desc) {
    var epoch := d.status / 4;
    if d.status % 4 != EMPTY || d.epoch != epoch || epoch > EPOCH_CEILING then
      (Fail(k, Integrity, FAILURE_INTEGRITY), d)
    else if epoch >= EPOCH_CEILING then
      (Fail(k, CounterLimit, FAILURE_COUNTER), d)
    else
      (k.(epoch := epoch + 1, pc := StoreReserved), d.(epoch := epoch + 1))
  }

  /** el_read_metadata. */
  function ValidateReady(c: Config, k: Conn, d: Desc, bytes: seq<Byte>): (Conn, Desc) {
    var k := k.(epoch := d.epoch);
    if d.epoch == 0 || d.epoch > EPOCH_CEILING || d.length > c.maxPayload
      || d.status != StatusWord(d.epoch, COMMITTED)
      || d.checksum != ChecksumOf(c, Take(bytes, d.length))
    then
      (Fail(k, Integrity, FAILURE_INTEGRITY), d)
    else
      (Respond(k, Ok).(span := MessageOf(d, bytes)), d.(status := StatusWord(d.epoch, CONSUMED)))
  }

  predicate Matches(k: Conn, d: Desc, phase: nat) {
    d.epoch == k.epoch && d.status == StatusWord(k.epoch, phase)
  }

  function AtDescribe(c: Config, k: Conn, d: Desc, bytes: seq<Byte>, length: nat, mtype: nat, id: nat): (Conn, Desc) {
    if !Matches(k, d, RESERVED) then (Fail(k, Integrity, FAILURE_INTEGRITY), d)
    else (Goto(k, StoreCommitted),
          d.(length := length, mtype := mtype, id := id, checksum := ChecksumOf(c, Take(bytes, length))))
  }

  function AtStoreEmpty(k: Conn, d: Desc): (Conn, Desc) {
    if !Matches(k, d, if k.role.Producer? then RESERVED else CONSUMED) then
      (Fail(k, Integrity, FAILURE_INTEGRITY), d)
    else
      (Goto(k, LoadTail(Free)), d.(status := StatusWord(k.epoch, EMPTY)))
  }

  /** A step that touches only the connection and the descriptor it owns. */
  function AtOwned(c: Config, k: Conn, d: Desc, bytes: seq<Byte>): (Conn, Desc) {
    match k.pc
    case Validate => if k.role.Producer? then ValidateFree(k, d) else ValidateReady(c, k, d, bytes)
    case StoreReserved => (Respond(k, Ok), d.(status := StatusWord(k.epoch, RESERVED)))
    case Describe(length, mtype, id) => AtDescribe(c, k, d, bytes, length, mtype, id)
    case StoreCommitted => (Goto(k, LoadTail(Ready)), d.(status := StatusWord(k.epoch, COMMITTED)))
    case StoreEmpty => AtStoreEmpty(k, d)
    case _ => (k, d)
  }

  function AtLoadTail(c: Config, k: Conn, q: Queue, w: Which): Conn {
    if q.tail >= Limit(c.n) then Fail(k, CounterLimit, FAILURE_COUNTER) else Goto(k, LoadCell(w, q.tail))
  }

  function AtLoadCell(c: Config, k: Conn, q: Queue, w: Which, t: nat): Conn
    requires c.n > 0
  {
    var e := Cell(c.n, q, t);
    if Current(c.n, t, e) then Goto(k, HelpTail(w, t))
    else if Older(c.n, t, e) then Goto(k, InstallCell(w, t, e))
    else Goto(k, LoadTail(w))
  }

  function AtInstallCell(c: Config, s: Pool, i: nat, k: Conn, w: Which, t: nat, e: nat): Pool
    requires c.n > 0 && i < |s.conns|
  {
    var q, b := TheQueue(s, w), k.block;
    if Cell(c.n, q, t) == e && b < |s.place| && b < |s.desc| && b < |s.payload| then
      var s' := WithQueue(s, w, InstallAt(c.n, q, t, b));
      Put(s', i, Goto(k, AdvanceTail(w, t))).(
        place := s.place[b := match w case Free => InFree(|q.log|) case Ready => InReady(|q.log|)],
        published := if w.Ready? then s.published + [MessageOf(s.desc[b], s.payload[b])] else s.published)
    else
      Put(s, i, Goto(k, LoadTail(w)))
  }

  predicate OwnedPc(pc: Pc) {
    pc.Validate? || pc.StoreReserved? || pc.Describe? || pc.StoreCommitted? || pc.StoreEmpty?
  }

  /** One step of connection i inside a library call. */
  function Advance(c: Config, s: Pool, i: nat): Pool
    requires c.n > 0 && i < |s.conns|
  {
    var k := s.conns[i];
    var q := TheQueue(s, QueueOf(k.role));
    match k.pc
    case Idle => s
    case CheckGate(op) => Put(s, i, AtCheckGate(k, op, s.gate))
    case CheckFailure(op) => Put(s, i, AtCheckFailure(k, op, s.failure))
    case LoadHead => Put(s, i, AtLoadHead(c, k, q))
    case LoadEntry(h) => Put(s, i, AtLoadEntry(c, k, q, h))
    case ClaimHead(h, e) => AtClaimHead(c, s, i, k, h, e)
    case LoadTail(w) => Put(s, i, AtLoadTail(c, k, TheQueue(s, w), w))
    case LoadCell(w, t) => Put(s, i, AtLoadCell(c, k, TheQueue(s, w), w, t))
    case InstallCell(w, t, e) => AtInstallCell(c, s, i, k, w, t, e)
    case HelpTail(w, t) =>
      Put(WithQueue(s, w, TailCas(TheQueue(s, w), t)), i, Goto(k, LoadTail(w)))
    case AdvanceTail(w, t) =>
      Put(WithQueue(s, w, TailCas(TheQueue(s, w), t)), i, Respond(k, Ok).(owned := NoToken))
    case RaiseFailure(reason) =>
      Put(s.(failure := FirstReason(s.failure, reason)), i, Goto(k, RequestRetire))
    case RequestRetire =>
      Put(s.(gate := Retire(s.gate)), i, Goto(k, Idle))
    case _ =>
      if k.block < |s.desc| && k.block < |s.payload| then
        var (k', d') := AtOwned(c, k, s.desc[k.block], s.payload[k.block]);
        Put(s, i, k').(desc := s.desc[k.block := d'])
      else s
  }

  // ------------------------------------------------------------------- the caller

  function AtInvoke(c: Config, k: Conn, op: Op, bytes: seq<Byte>): Conn {
    var r := EntryCheck(c, k.role, k.owned, k.poisoned, op);
    if r != Ok then Respond(k, r)
    else if op.Commit? then
      Goto(k, CheckGate(op)).(offer := Message(op.length, op.mtype, op.id, k.epoch, Take(bytes, op.length)))
    else Goto(k, CheckGate(op))
  }

  function HeldBytes(s: Pool, k: Conn): seq<Byte> {
    if k.block < |s.payload| then s.payload[k.block] else []
  }

  datatype Action =
    | Step(i: nat)                              // one internal step of a call
    | Invoke(i: nat, op: Op)                    // the application enters a call
    | WriteByte(i: nat, at: nat, value: Byte)   // ... or stores into its write span
    | EnableDrain(i: nat)
    | Abandon(i: nat)                           // elite_abandon_retained
    | RaiseBy(reason: nat)                      // retirement by another party
    | MoveGate(gate: nat)

  predicate Enabled(c: Config, s: Pool, a: Action) {
    match a
    case Step(i) => i < |s.conns| && !s.conns[i].pc.Idle?
    case Invoke(i, op) => i < |s.conns| && s.conns[i].pc.Idle?
    case WriteByte(i, at, value) =>
      && i < |s.conns| && s.conns[i].pc.Idle? && s.conns[i].owned.WriteToken?
      && s.conns[i].block < |s.payload| && at < |s.payload[s.conns[i].block]|
    case EnableDrain(i) =>
      i < |s.conns| && s.conns[i].pc.Idle? && s.conns[i].role.Consumer? && s.conns[i].owned.NoToken?
    case Abandon(i) =>
      && i < |s.conns| && s.conns[i].pc.Idle? && !s.conns[i].owned.NoToken?
      && s.conns[i].block < |s.place| && s.gate >= RETIRE_REQUESTED
    case RaiseBy(reason) => 1 <= reason <= FAILURE_AUTHORITY
    case MoveGate(gate) => s.gate < gate <= SEALED
  }

  function Apply(c: Config, s: Pool, a: Action): Pool
    requires c.n > 0 && Enabled(c, s, a)
  {
    match a
    case Step(i) => Advance(c, s, i)
    case Invoke(i, op) => Put(s, i, AtInvoke(c, s.conns[i], op, HeldBytes(s, s.conns[i])))
    case WriteByte(i, at, value) =>
      var b := s.conns[i].block;
      s.(payload := s.payload[b := Patch(s.payload[b], at, value)])
    case EnableDrain(i) => Put(s, i, s.conns[i].(drain := true))
    case Abandon(i) =>
      Put(s, i, s.conns[i].(owned := NoToken, poisoned := true))
        .(place := s.place[s.conns[i].block := Abandoned])
    case RaiseBy(reason) => s.(failure := FirstReason(s.failure, reason))
    case MoveGate(gate) => s.(gate := gate)
  }

  // ---------------------------------------------------------------- construction

  function FreshConn(r: Role): Conn {
    Conn(r, Idle, NoToken, 0, 0, 0, false, false, NO_MESSAGE, Ok, 0, NO_MESSAGE)
  }

  /** construct(): QF full with the identity, QR empty one lap ahead. */
  function Initial(c: Config, roles: seq<Role>): Pool {
    Pool(
      Queue(0, c.n, seq(c.n, i => i), seq(c.n, i => i)),
      Queue(c.n, c.n, seq(c.n, i => 0), seq(c.n, i => 0)),
      seq(c.n, i => Desc(0, 0, 0, 0, Zeros(64), 0)),
      seq(c.n, i => ClearBytes(c.maxPayload)),
      READY, 0,
      seq(|roles|, i requires 0 <= i < |roles| => FreshConn(roles[i])),
      seq(c.n, i requires 0 <= i < c.n => InFree(i)), [], [])
  }

  /** A run: every action is enabled where it happens. */
  ghost predicate Run(c: Config, s: Pool, acts: seq<Action>)
    requires c.n > 0
    decreases |acts|
  {
    |acts| == 0 || (Enabled(c, s, acts[0]) && Run(c, Apply(c, s, acts[0]), acts[1..]))
  }

  ghost function After(c: Config, s: Pool, acts: seq<Action>): Pool
    requires c.n > 0 && Run(c, s, acts)
    decreases |acts|
  {
    if |acts| == 0 then s else After(c, Apply(c, s, acts[0]), acts[1..])
  }
}
