/** A published message damaged in the SPSC segment: until the reader looks at it the
    run is the undamaged one, and then the reading call answers Integrity, retires the
    generation and never gets past the message.  */
module SpscDamage {
  import opened Words
  import opened NcqQueue
  import opened Crc
  import opened Core
  import opened SpscRing
  import opened SpscTheorems

  function Hit(c: Config, s: Channel, t: nat, received: seq<Byte>): Channel
    requires c.n > 0 && Slot(c.n, t) < |s.payload|
  {
    s.(payload := s.payload[Slot(c.n, t) := received])
  }

  /** Message t is published and no read of it has been granted. */
  predicate Unread(s: Channel, t: nat) { s.reclaimed <= t < s.published && !Granted(s, t) }

  predicate Granted(s: Channel, t: nat) { s.consumer.owned.ReadToken? && s.consumer.cursor == t }

  predicate ReadsAt(s: Channel, a: Action, t: nat) {
    a == Step(Consumer) && s.consumer.pc.ReadSlot? && s.consumer.cursor == t
  }

  /** No action of the run is the read of message t. */
  ghost predicate Unreached(c: Config, s: Channel, acts: seq<Action>, t: nat)
    requires c.n > 0 && Run(c, s, acts)
    decreases |acts|
  {
    |acts| == 0 || (!ReadsAt(s, acts[0], t) && Unreached(c, Apply(c, s, acts[0]), acts[1..], t))
  }

  // ------------------------------------------------------- the same run, undamaged

  ghost predicate Hidden(c: Config, s: Channel, t: nat, received: seq<Byte>) {
    && Inv(c, s) && Unread(s, t) && Slot(c.n, t) < c.n && |received| == c.maxPayload
  }

  /** The writer's slot is not the damaged one, and neither is the slot of another read. */
  lemma {:induction false} Elsewhere(c: Config, s: Channel, t: nat, r: Role)
    requires Inv(c, s) && s.reclaimed <= t < s.published
    requires var k := The(s, r);
      || k.pc.FillSlot? || k.owned.WriteToken? || (k.pc.ReadSlot? && k.cursor != t)
    ensures SlotOf(c, The(s, r)) != Slot(c.n, t)
  {
    var k := The(s, r);
    if k.pc.ReadSlot? {
      if Slot(c.n, k.cursor) == Slot(c.n, t) { SlotUnique(c.n, k.cursor, t); }
    } else {
      WriterApart(c, s, t);
    }
  }

  lemma {:induction false} OtherSlotSame(c: Config, s: Channel, t: nat, received: seq<Byte>, r: Role)
    requires c.n > 0 && Slot(c.n, t) < |s.payload| && SlotOf(c, The(s, r)) != Slot(c.n, t)
    ensures AtPrivate(c, Hit(c, s, t, received), r) == Hit(c, AtPrivate(c, s, r), t, received)
  {
  }

  /** The end of a token looks at no payload. */
  lemma {:induction false} EndSame(c: Config, s: Channel, t: nat, received: seq<Byte>, r: Role)
    requires c.n > 0 && Slot(c.n, t) < |s.payload| && (The(s, r).pc.EndWrite? || The(s, r).pc.EndRead?)
    ensures AtPrivate(c, Hit(c, s, t, received), r) == Hit(c, AtPrivate(c, s, r), t, received)
  {
  }

  lemma {:induction false} SlotSame(c: Config, s: Channel, t: nat, received: seq<Byte>, r: Role)
    requires Hidden(c, s, t, received) && SlotPc(The(s, r).pc) && !ReadsAt(s, Step(r), t)
    ensures AtPrivate(c, Hit(c, s, t, received), r) == Hit(c, AtPrivate(c, s, r), t, received)
  {
    if The(s, r).pc.EndWrite? || The(s, r).pc.EndRead? {
      EndSame(c, s, t, received, r);
    } else {
      Elsewhere(c, s, t, r);
      OtherSlotSame(c, s, t, received, r);
    }
  }

  lemma {:induction false} StepSame(c: Config, s: Channel, t: nat, received: seq<Byte>, r: Role)
    requires Hidden(c, s, t, received) && !ReadsAt(s, Step(r), t)
    ensures Slot(c.n, t) < |Advance(c, s, r).payload|
    ensures Advance(c, Hit(c, s, t, received), r) == Hit(c, Advance(c, s, r), t, received)
  {
    if SlotPc(The(s, r).pc) {
      SlotSame(c, s, t, received, r);
    } else if The(s, r).pc.StorePublished? {
      Elsewhere(c, s, t, r);
    }
  }

  lemma {:induction false} InvokeSame(c: Config, s: Channel, t: nat, received: seq<Byte>, r: Role, op: Op)
    requires Hidden(c, s, t, received) && The(s, r).pc.Idle?
    ensures Apply(c, Hit(c, s, t, received), Invoke(r, op)) == Hit(c, Apply(c, s, Invoke(r, op)), t, received)
  {
    if The(s, r).owned.WriteToken? { Elsewhere(c, s, t, r); }
  }

  lemma {:induction false} WriteByteSame(c: Config, s: Channel, t: nat, received: seq<Byte>, at: nat, value: Byte)
    requires Hidden(c, s, t, received) && Enabled(c, s, WriteByte(at, value))
    ensures Enabled(c, Hit(c, s, t, received), WriteByte(at, value))
    ensures Apply(c, Hit(c, s, t, received), WriteByte(at, value))
         == Hit(c, Apply(c, s, WriteByte(at, value)), t, received)
  {
    Elsewhere(c, s, t, Producer);
    var b, w := Slot(c.n, t), s.producer.block;
    var patched := Patch(s.payload[w], at, value);
    assert s.payload[b := received][w := patched] == s.payload[w := patched][b := received];
  }

  lemma {:induction false} ActionSame(c: Config, s: Channel, t: nat, received: seq<Byte>, a: Action)
    requires Hidden(c, s, t, received) && Enabled(c, Hit(c, s, t, received), a) && !ReadsAt(s, a, t)
    ensures Enabled(c, s, a) && Slot(c.n, t) < |Apply(c, s, a).payload|
    ensures Apply(c, Hit(c, s, t, received), a) == Hit(c, Apply(c, s, a), t, received)
  {
    match a
    case Step(r) => StepSame(c, s, t, received, r);
    case Invoke(r, op) => InvokeSame(c, s, t, received, r, op);
    case WriteByte(at, value) =>
      Elsewhere(c, s, t, Producer);
      WriteByteSame(c, s, t, received, at, value);
    case _ =>
  }

  lemma {:induction false} AdmissionGrantsNothing(c: Config, k: Side, op: Op, gate: nat, failure: nat)
    ensures var k' := AtCheckGate(c, k, op, gate); k'.owned == k.owned && k'.cursor == k.cursor
    ensures var k' := AtCheckFailure(c, k, op, failure); k'.owned == k.owned && k'.cursor == k.cursor
  {
  }

  lemma {:induction false} ReaderSlotGrants(c: Config, s: Channel, t: nat)
    requires Inv(c, s) && !Granted(s, t) && SlotPc(s.consumer.pc) && !ReadsAt(s, Step(Consumer), t)
    ensures !Granted(Advance(c, s, Consumer), t)
  {
  }

  lemma {:induction false} ReaderGrants(c: Config, s: Channel, t: nat)
    requires Inv(c, s) && !Granted(s, t) && Enabled(c, s, Step(Consumer)) && !ReadsAt(s, Step(Consumer), t)
    ensures !Granted(Advance(c, s, Consumer), t)
  {
    match s.consumer.pc
    case StoreReclaimed => ReclaimEffect(c, s);
    case CheckGate(op) => AdmissionGrantsNothing(c, s.consumer, op, s.gate, s.failure);
    case CheckFailure(op) => AdmissionGrantsNothing(c, s.consumer, op, s.gate, s.failure);
    case _ => if SlotPc(s.consumer.pc) { ReaderSlotGrants(c, s, t); }
  }

  lemma {:induction false} LoadGrantsNothing(c: Config, k: Side, seen: nat)
    ensures var k' := AtLoadPeer(c, k, seen); k'.owned == k.owned && k'.cursor == k.cursor
  {
  }

  lemma {:induction false} CallerGrantsNothing(c: Config, s: Channel, a: Action, t: nat)
    requires c.n > 0 && !Granted(s, t) && Enabled(c, s, a) && !a.Step?
    ensures !Granted(Apply(c, s, a), t)
  {
    if a.Load? { LoadGrantsNothing(c, The(s, a.r), a.seen); }
  }

  lemma {:induction false} OthersGrantNothing(c: Config, s: Channel, a: Action, t: nat)
    requires Inv(c, s) && !Granted(s, t) && Enabled(c, s, a) && a != Step(Consumer)
    ensures !Granted(Apply(c, s, a), t)
  {
    if a.Step? { WriterStep(c, s); } else { CallerGrantsNothing(c, s, a, t); }
  }

  /** Nothing but its own read ends the time in which a message is unread. */
  lemma {:induction false} StaysUnread(c: Config, s: Channel, t: nat, a: Action)
    requires Inv(c, s) && Unread(s, t) && Enabled(c, s, a) && !ReadsAt(s, a, t)
    ensures Unread(Apply(c, s, a), t)
  {
    ActionIsLater(c, s, a);
    StoreReclaims(c, s, a);
    if a == Step(Consumer) { ReaderGrants(c, s, t); } else { OthersGrantNothing(c, s, a, t); }
  }

  lemma {:induction false} RunSame(c: Config, s: Channel, t: nat, received: seq<Byte>, acts: seq<Action>)
    requires Hidden(c, s, t, received) && Run(c, Hit(c, s, t, received), acts)
    requires Unreached(c, Hit(c, s, t, received), acts, t)
    ensures Run(c, s, acts) && Hidden(c, After(c, s, acts), t, received)
    ensures Slot(c.n, t) < |After(c, s, acts).payload|
    ensures After(c, Hit(c, s, t, received), acts) == Hit(c, After(c, s, acts), t, received)
    decreases |acts|
  {
    if |acts| > 0 {
      ActionSame(c, s, t, received, acts[0]);
      StaysUnread(c, s, t, acts[0]);
      ActionKeeps(c, s, acts[0]);
      RunSame(c, Apply(c, s, acts[0]), t, received, acts[1..]);
    }
  }

  // ---------------------------------------------------------------- the failed read

  /** Damage is a matter of the bytes the message has, and those stay. */
  lemma {:induction false} DamageStays(c: Config, s: Channel, z: Channel, t: nat, received: seq<Byte>, from: nat)
    requires Inv(c, s) && Inv(c, z) && s.reclaimed <= t < s.published && z.reclaimed <= t < z.published
    requires s.history <= z.history && Slot(c.n, t) < c.n
    requires var b := Slot(c.n, t); Damaged(s.payload[b], received, s.desc[b].length, from)
    ensures var b := Slot(c.n, t); Damaged(z.payload[b], received, z.desc[b].length, from)
  {
    assert Live(c, s, t) && Live(c, z, t);
  }

  /** The reader's call is failing, or is over, on a message it will never give back. */
  predicate Refused(s: Channel, t: nat) {
    && s.consumer.poisoned && s.reclaimed == t && READY <= s.gate
    && match s.consumer.pc
       case RaiseFailure(reason) => reason != 0
       case RequestRetire => s.failure != 0
       case Idle => s.failure != 0 && s.gate >= RETIRE_REQUESTED
       case _ => false
  }

  lemma {:induction false} ReadStep(c: Config, s: Channel)
    requires c.n > 0 && s.consumer.pc.ReadSlot?
    requires var b := Slot(c.n, s.consumer.cursor); b < |s.desc| && b < |s.payload|
    ensures var b := Slot(c.n, s.consumer.cursor);
      Advance(c, s, Consumer) == s.(consumer := AtReadSlot(c, s.consumer, b, s.desc[b], s.payload[b]))
  {
    var b := Slot(c.n, s.consumer.cursor);
    assert s.desc[b := s.desc[b]] == s.desc;
  }

  lemma {:induction false} SlotFails(c: Config, k: Side, b: nat, d: Desc, received: seq<Byte>)
    requires d.checksum != ChecksumOf(c, Take(received, d.length))
    ensures var k' := AtReadSlot(c, k, b, d, received);
      k'.poisoned && k'.pc == RaiseFailure(FAILURE_INTEGRITY) && k'.result == Integrity
  {
  }

  lemma {:induction false} ReadFails(c: Config, s: Channel, t: nat, received: seq<Byte>, from: nat)
    requires Hidden(c, s, t, received) && c.checksummed && ReadsAt(s, Step(Consumer), t)
    requires var b := Slot(c.n, t); Damaged(s.payload[b], received, s.desc[b].length, from)
    ensures var v := Advance(c, Hit(c, s, t, received), Consumer);
      Refused(v, t) && v.consumer.result == Integrity && v.producer == s.producer
  {
    assert Live(c, s, t);
    var b := Slot(c.n, t);
    DamageShows(c, s.payload[b], received, s.desc[b].length, from);
    ReadStep(c, Hit(c, s, t, received));
    SlotFails(c, s.consumer, b, s.desc[b], received);
  }

  /** The producer is at no step of the other endpoint. */
  predicate OnlyWrites(k: Side) {
    && k.role.Producer?
    && match k.pc
       case CheckGate(op) => !op.Release?
       case CheckFailure(op) => !op.Release?
       case EndRead => false
       case StoreReclaimed => false
       case _ => true
  }

  lemma {:induction false} ProducerOnlyWrites(c: Config, s: Channel)
    requires Inv(c, s)
    ensures OnlyWrites(s.producer)
  {
  }

  lemma {:induction false} AdmissionOnlyWrites(c: Config, k: Side, op: Op, gate: nat, failure: nat)
    requires k.role.Producer? && !op.Release?
    ensures OnlyWrites(AtCheckGate(c, k, op, gate)) && OnlyWrites(AtCheckFailure(c, k, op, failure))
  {
  }

  /** The producer at work takes nothing back from the reader's failure. */
  predicate Onward(s: Channel, s': Channel) {
    && OnlyWrites(s'.producer) && s'.consumer == s.consumer && s'.reclaimed == s.reclaimed
    && s'.gate >= s.gate && (s.failure != 0 ==> s'.failure != 0)
  }

  lemma {:induction false} SlotOnward(c: Config, s: Channel)
    requires c.n > 0 && OnlyWrites(s.producer) && SlotPc(s.producer.pc)
    ensures Onward(s, Advance(c, s, Producer))
  {
  }

  lemma {:induction false} WriterOnward(c: Config, s: Channel)
    requires c.n > 0 && OnlyWrites(s.producer)
    ensures Onward(s, Advance(c, s, Producer))
  {
    var k := s.producer;
    match k.pc
    case CheckGate(op) => AdmissionOnlyWrites(c, k, op, s.gate, s.failure);
    case CheckFailure(op) => AdmissionOnlyWrites(c, k, op, s.gate, s.failure);
    case _ => if SlotPc(k.pc) { SlotOnward(c, s); }
  }

  lemma {:induction false} LoadOnlyWrites(c: Config, k: Side, seen: nat)
    requires OnlyWrites(k)
    ensures OnlyWrites(AtLoadPeer(c, k, seen))
  {
  }

  /** An invocation lets a poisoned endpoint do nothing, and the producer no release. */
  lemma {:induction false} InvokeRefused(c: Config, k: Side, op: Op, bytes: seq<Byte>)
    ensures var k' := AtInvoke(c, k, op, bytes);
      && (k.poisoned ==> k'.pc.Idle? && k'.poisoned) && (OnlyWrites(k) ==> OnlyWrites(k'))
  {
  }

  lemma {:induction false} RefusalStays(c: Config, s: Channel, t: nat, a: Action)
    requires c.n > 0 && Refused(s, t) && OnlyWrites(s.producer) && Enabled(c, s, a)
    ensures Refused(Apply(c, s, a), t) && OnlyWrites(Apply(c, s, a).producer)
    ensures !(a.Invoke? && a.r.Consumer?) ==> Apply(c, s, a).consumer.result == s.consumer.result
  {
    match a
    case Step(Producer) => WriterOnward(c, s);
    case Load(r, seen) => LoadOnlyWrites(c, s.producer, seen);
    case Invoke(r, op) => InvokeRefused(c, The(s, r), op, HeldBytes(s, The(s, r)));
    case _ =>
  }

  lemma {:induction false} RefusedRun(c: Config, s: Channel, t: nat, acts: seq<Action>)
    requires c.n > 0 && Refused(s, t) && OnlyWrites(s.producer) && Run(c, s, acts)
    ensures Refused(After(c, s, acts), t)
    ensures NoNewCall(acts, Consumer) ==> After(c, s, acts).consumer.result == s.consumer.result
    decreases |acts|
  {
    if |acts| > 0 {
      RefusalStays(c, s, t, acts[0]);
      RefusedRun(c, Apply(c, s, acts[0]), t, acts[1..]);
    }
  }

  /** A published message hit by a burst of at most 64 bits before it is read: every run
      is the undamaged run as long as the message is not looked at, and the call that
      looks at it answers Integrity.  That call leaves a failure and a gate past READY,
      and whatever anyone does afterwards the message is never given back. */
  lemma {:induction false} DamageIsRefused(c: Config, s: Channel, t: nat, received: seq<Byte>, from: nat,
                                           before: seq<Action>, after: seq<Action>)
    requires Admitted(c) && Reachable(c, s) && c.checksummed && Unread(s, t)
    requires var b := Slot(c.n, t);
      b < |s.desc| && b < |s.payload| && Damaged(s.payload[b], received, s.desc[b].length, from)
    requires var hit := Hit(c, s, t, received); Run(c, hit, before) && Unreached(c, hit, before, t)
    requires var u := After(c, Hit(c, s, t, received), before);
      ReadsAt(u, Step(Consumer), t) && Run(c, Apply(c, u, Step(Consumer)), after)
    ensures Run(c, s, before) && Slot(c.n, t) < |After(c, s, before).payload|
    ensures After(c, Hit(c, s, t, received), before) == Hit(c, After(c, s, before), t, received)
    ensures var u := After(c, Hit(c, s, t, received), before);
      var v := After(c, Apply(c, u, Step(Consumer)), after);
      && v.reclaimed == t && v.consumer.poisoned
      && (NoNewCall(after, Consumer) ==> v.consumer.result == Integrity)
      && (v.consumer.pc.Idle? ==> v.failure != 0 && v.gate >= RETIRE_REQUESTED)
  {
    ReachableInv(c, s);
    RunSame(c, s, t, received, before);
    var z := After(c, s, before);
    NothingFalls(c, s, before);
    DamageStays(c, s, z, t, received, from);
    ReadFails(c, z, t, received, from);
    ProducerOnlyWrites(c, z);
    RefusedRun(c, Advance(c, Hit(c, z, t, received), Consumer), t, after);
  }
}
