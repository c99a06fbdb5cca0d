/** What both layouts share of src/elite_core.c: the values a call handles, the
    checks it makes on entry and at the admission gate, and retirement. */
module Core {
  import opened Words
  import opened NcqQueue
  import opened Crc

  const READY: nat := 1
  const RETIRE_REQUESTED: nat := 2
  const QUIESCING: nat := 3
  const QUARANTINED: nat := 4
  const SEALED: nat := 5

  const EMPTY: nat := 0
  const RESERVED: nat := 1
  const COMMITTED: nat := 2
  const CONSUMED: nat := 3

  const FAILURE_INTEGRITY: nat := 1
  const FAILURE_COUNTER: nat := 2
  const FAILURE_PEER: nat := 3
  const FAILURE_PROTOCOL: nat := 4
  const FAILURE_AUTHORITY: nat := 6

  const EPOCH_CEILING: nat := 0x3fff_ffff_ffff_fffe

  // ---------------------------------------------------------------------- values

  datatype Config = Config(n: nat, maxPayload: nat, checksummed: bool)

  /** The capacities the geometry accepts. */
  ghost predicate Admitted(c: Config) { Ring(c.n) && 0 < c.n <= Limit(c.n) }

  datatype Role = Producer | Consumer
  datatype Own = NoToken | WriteToken | ReadToken
  datatype Op = Reserve | Borrow | Commit(length: nat, mtype: nat, id: nat) | Abort | Release

  datatype Status = Ok | NoData | NoCapacity | Retired | Busy | CounterLimit | Integrity
                  | InvalidLease | InvalidArgument | OsError

  datatype Message = Message(length: nat, mtype: nat, id: nat, epoch: nat, bytes: seq<Byte>)

  const NO_MESSAGE := Message(0, 0, 0, 0, [])

  datatype Desc = Desc(epoch: nat, status: nat, length: nat, mtype: nat, checksum: Word64, id: nat)

  function StatusWord(epoch: nat, phase: nat): nat { epoch * 4 % U64 + phase }

  function Take(bytes: seq<Byte>, k: nat): seq<Byte> {
    if k <= |bytes| then bytes[..k] else bytes
  }

  function Patch(bytes: seq<Byte>, at: nat, value: Byte): seq<Byte>
    requires at < |bytes|
  {
    bytes[..at] + [value] + bytes[at + 1..]
  }

  function ClearBytes(k: nat): (bytes: seq<Byte>)
    ensures |bytes| == k
  {
    var z: Byte := Zeros(8);
    seq(k, j => z)
  }

  function ChecksumOf(c: Config, bytes: seq<Byte>): Word64 {
    if c.checksummed then Crc64(bytes) else Zeros(64)
  }

  /** A payload that reached its reader with an error burst of at most 64 bits. */
  ghost predicate Damaged(sent: seq<Byte>, received: seq<Byte>, length: nat, from: nat) {
    && |sent| == |received| && length <= |sent| && from <= 8 * length
    && Burst(Xor(Stream(Take(sent, length)), Stream(Take(received, length))), from, 64)
  }

  lemma {:induction false} DamageShows(c: Config, sent: seq<Byte>, received: seq<Byte>, length: nat, from: nat)
    requires c.checksummed && Damaged(sent, received, length, from)
    ensures ChecksumOf(c, Take(received, length)) != ChecksumOf(c, Take(sent, length))
  {
    BurstDetected(Take(sent, length), Take(received, length), from);
  }

  function MessageOf(d: Desc, bytes: seq<Byte>): Message {
    Message(d.length, d.mtype, d.id, d.epoch, Take(bytes, d.length))
  }

  /** Taking the oldest message away. */
  lemma {:induction false} DropNext(xs: seq<Message>, k: nat)
    requires k < |xs|
    ensures xs[k..] != [] && xs[k..][0] == xs[k] && xs[k..][1..] == xs[k + 1..]
  {
  }

  // -------------------------------------------------------------------- admission

  /** The entry checks of a public call, all of them local; Ok lets it go on. */
  function EntryCheck(c: Config, role: Role, owned: Own, poisoned: bool, op: Op): Status {
    match op
    case Reserve | Borrow =>
      if role != (if op.Reserve? then Producer else Consumer) then InvalidArgument
      else if owned != NoToken then Busy
      else if poisoned then Retired
      else Ok
    case Commit(length, mtype, id) =>
      if role != Producer then InvalidArgument
      else if owned != WriteToken then InvalidLease
      else if length > c.maxPayload then InvalidArgument
      else if poisoned then Retired
      else Ok
    case Abort =>
      if role != Producer then InvalidArgument
      else if owned != WriteToken then InvalidLease
      else if poisoned then Retired
      else Ok
    case Release =>
      if role != Consumer then InvalidArgument
      else if owned != ReadToken then InvalidLease
      else if poisoned then Retired
      else Ok
  }

  predicate Benign(failure: nat) {
    failure == 0 || failure == FAILURE_PEER || failure == FAILURE_AUTHORITY
  }

  predicate Returning(op: Op) { op.Abort? || op.Release? }

  predicate GateAdmits(drain: bool, op: Op, gate: nat) {
    if Returning(op) then READY <= gate <= QUIESCING
    else gate == READY || (op.Borrow? && drain && gate == RETIRE_REQUESTED)
  }

  // ------------------------------------------------------------------- retirement

  /** The failure word keeps the first reason it is given. */
  function FirstReason(failure: nat, reason: nat): nat { if failure == 0 then reason else failure }

  function Retire(gate: nat): nat { if gate == READY then RETIRE_REQUESTED else gate }

  // -------------------------------------------------------------------------- uses

  /** One use of a block: the span between a reservation and its end. */
  datatype Use = Use(block: nat, epoch: nat)

  predicate Once(xs: seq<Use>) { forall i, j :: 0 <= i < j < |xs| ==> xs[i] != xs[j] }

  /** Of two uses of one block the later has the higher epoch. */
  predicate Rising(xs: seq<Use>) {
    forall i, j :: 0 <= i < j < |xs| && xs[i].block == xs[j].block ==> xs[i].epoch < xs[j].epoch
  }

  lemma {:induction false} RisingAppend(xs: seq<Use>, u: Use)
    requires Rising(xs) && forall j :: 0 <= j < |xs| && xs[j].block == u.block ==> xs[j].epoch < u.epoch
    ensures Rising(xs + [u])
  {
  }
}
