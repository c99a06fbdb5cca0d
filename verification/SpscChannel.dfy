/** The single-producer single-consumer channel of src/elite_spsc.c.

    A method is the part of a call that follows its admission check, and `admitted`
    is what that check answered; module SpscRing has the check as a step of its own,
    under a gate that moves.  What is left of a call holds at most one atomic on a
    cursor, an acquire load or a release store, so the methods may be called in any
    order.  The value an acquire load returns is a parameter: any value the peer's
    cursor has had since the last one this endpoint saw.  */
module SpscChannel {
  import opened Words
  import opened NcqQueue
  import opened Crc
  import opened Core

  class Endpoint {
    var cursor: nat
    var cachedPeer: nat
    var block: nat
    var epoch: nat
    var owned: Own
    var poisoned: bool
    var span: Message

    constructor ()
      ensures cursor == 0 && cachedPeer == 0 && owned == NoToken && !poisoned
    {
      cursor, cachedPeer, block, epoch := 0, 0, 0, 0;
      owned, poisoned, span := NoToken, false, NO_MESSAGE;
    }
  }

  class Channel {
    const n: nat
    const maxPayload: nat
    const checksummed: bool
    const descs: array<Desc>
    const payloads: array<seq<Byte>>
    const producer: Endpoint
    const consumer: Endpoint
    var published: nat
    var reclaimed: nat
    ghost var history: seq<Message>   // every message ever published, in order

    ghost function Footprint(): set<object> { {this, descs, payloads, producer, consumer} }

    /** The abstract bounded FIFO. */
    ghost function Contents(): seq<Message>
      reads this
      requires reclaimed <= |history|
    {
      history[reclaimed..]
    }

    ghost predicate Live(t: nat)
      reads this, descs, payloads
      requires n > 0 && descs.Length == payloads.Length == n
    {
      var b := Slot(n, t);
      && b < n && t < |history|
      && 1 <= descs[b].epoch
      && descs[b].length <= maxPayload
      && descs[b].checksum == ChecksumOf(Config(n, maxPayload, checksummed), Take(payloads[b], descs[b].length))
      && MessageOf(descs[b], payloads[b]) == history[t]
    }

    ghost predicate Counters()
      reads this, producer, consumer
    {
      && reclaimed <= published <= reclaimed + n
      && published <= Limit(n)
      && |history| == published
      && producer.cursor == published && consumer.cursor == reclaimed
      && producer.cachedPeer <= reclaimed <= consumer.cachedPeer <= published <= producer.cachedPeer + n
    }

    ghost predicate Tokens()
      reads this, producer, consumer, descs
      requires n > 0 && descs.Length == n
    {
      && !producer.owned.ReadToken? && !consumer.owned.WriteToken?
      && (producer.owned.WriteToken? ==>
            && producer.block == Slot(n, published) < n && published < Limit(n)
            && published - producer.cachedPeer < n
            && descs[producer.block].epoch == producer.epoch >= 1)
      && (consumer.owned.ReadToken? ==>
            && consumer.block == Slot(n, reclaimed) < n && reclaimed < consumer.cachedPeer
            && descs[consumer.block].epoch == consumer.epoch
            && reclaimed < |history| && consumer.span == history[reclaimed])
    }

    ghost predicate Valid()
      reads this, descs, payloads, producer, consumer
    {
      && Ring(n) && n > 0 && n <= Limit(n)
      && descs.Length == payloads.Length == n
      && producer != consumer
      && Counters()
      && (forall b :: 0 <= b < n ==> |payloads[b]| == maxPayload && descs[b].epoch <= EPOCH_CEILING)
      && (forall t :: reclaimed <= t < published ==> Live(t))
      && Counters() && |history| == published && Tokens()
    }

    constructor (n: nat, maxPayload: nat, checksummed: bool)
      requires Ring(n) && 0 < n <= Limit(n)
      ensures Valid() && fresh(Footprint()) && Contents() == []
    {
      this.n, this.maxPayload, this.checksummed := n, maxPayload, checksummed;
      this.descs := new Desc[n](i => Desc(0, 0, 0, 0, Zeros(64), 0));
      this.payloads := new seq<Byte>[n](i => ClearBytes(maxPayload));
      var p := new Endpoint();
      var c := new Endpoint();
      this.producer, this.consumer := p, c;
      this.published, this.reclaimed, this.history := 0, 0, [];
    }

    /** The slot a writer fills is never the slot of an unreclaimed message. */
    lemma {:induction false} WriterApart()
      requires Valid() && published - reclaimed < n
      ensures Slot(n, published) < n
      ensures forall t :: reclaimed <= t < published ==> Slot(n, t) != Slot(n, published)
    {
      SlotSplit(n, published);
      forall t | reclaimed <= t < published ensures Slot(n, t) != Slot(n, published) {
        if Slot(n, t) == Slot(n, published) { SlotUnique(n, t, published); }
      }
    }

    ghost predicate AtEpochCeiling(b: nat)
      reads descs
    {
      b < descs.Length && descs[b].epoch == EPOCH_CEILING
    }

    /** A reservation that passes every check made before the cursors are looked at. */
    ghost predicate Starting(admitted: bool)
      reads this, producer
    {
      producer.owned == NoToken && !producer.poisoned && admitted
    }

    /** No ticket is left, or the slot that is free has no epoch left. */
    ghost predicate Exhausted(observed: nat)
      reads this, descs
      requires n > 0
    {
      published == Limit(n) || (published - observed < n && AtEpochCeiling(Slot(n, published)))
    }

    method Reserve(observed: nat, admitted: bool) returns (r: Status)
      requires Valid() && producer.cachedPeer <= observed <= reclaimed
      modifies descs, producer
      ensures Valid() && history == old(history)
      ensures r.Ok? || r.NoCapacity? || r.Busy? || r.Retired? || r.CounterLimit?
      ensures r == Busy <==> old(producer.owned) != NoToken
      ensures r == Retired <==> old(producer.owned) == NoToken && (old(producer.poisoned) || !admitted)
      ensures r != Ok ==> producer.owned == old(producer.owned)
      ensures r == Ok ==> producer.owned == WriteToken && producer.block == Slot(n, published)
      ensures r == Ok ==> forall t :: reclaimed <= t < published ==> Slot(n, t) != producer.block
      ensures forall b :: 0 <= b < n && !(r == Ok && b == producer.block) ==> descs[b] == old(descs[b])
      ensures r == Ok ==> producer.epoch == descs[producer.block].epoch == old(descs[Slot(n, published)]).epoch + 1
      ensures r == NoCapacity <==> old(Starting(admitted)) && published < Limit(n) && published - observed == n
      ensures r == CounterLimit <==> old(Starting(admitted) && Exhausted(observed))
      ensures r == CounterLimit <==> producer.poisoned && !old(producer.poisoned)
    {
      if producer.owned != NoToken { return Busy; }
      if producer.poisoned || !admitted { return Retired; }
      var p := producer.cursor;
      if p >= Limit(n) { producer.poisoned := true; return CounterLimit; }
      var space := LookForSpace(observed);
      if !space { return NoCapacity; }
      r := TakeSlot();
    }

    /** The cached cursor, refreshed when it does not show space.  The two integrity
        branches of the C code are dead. */
    method LookForSpace(observed: nat) returns (space: bool)
      requires Valid() && producer.owned == NoToken && producer.cachedPeer <= observed <= reclaimed
      modifies producer`cachedPeer
      ensures Valid()
      ensures space <==> published - observed < n
      ensures space ==> published - producer.cachedPeer < n
    {
      var p, peer := producer.cursor, producer.cachedPeer;
      if peer > p { assert false; }
      space := true;
      if p - peer >= n {
        peer := observed;
        producer.cachedPeer := peer;
        if peer > p { assert false; }
        space := p - peer < n;
      }
    }

    /** The slot past the last publication, unless its epochs are used up. */
    method TakeSlot() returns (r: Status)
      requires Valid() && Starting(true) && published < Limit(n) && published - producer.cachedPeer < n
      modifies descs, producer
      ensures Valid()
      ensures r == if old(AtEpochCeiling(Slot(n, published))) then CounterLimit else Ok
      ensures producer.poisoned <==> r == CounterLimit
      ensures r != Ok ==> producer.owned == NoToken
      ensures r == Ok ==> producer.owned == WriteToken && producer.block == Slot(n, published)
      ensures r == Ok ==> forall t :: reclaimed <= t < published ==> Slot(n, t) != producer.block
      ensures r == Ok ==> producer.epoch == descs[producer.block].epoch == old(descs[Slot(n, published)]).epoch + 1
      ensures forall b :: 0 <= b < n && !(r == Ok && b == producer.block) ==> descs[b] == old(descs[b])
    {
      WriterApart();
      var b := Slot(n, producer.cursor);
      if descs[b].epoch >= EPOCH_CEILING { producer.poisoned := true; return CounterLimit; }
      BeginWrite(b);
      return Ok;
    }

    /** The private part of a reservation: a fresh epoch and the write token. */
    method BeginWrite(b: nat)
      requires Valid() && producer.owned == NoToken && b == Slot(n, published) < n
      requires published < Limit(n) && published - producer.cachedPeer < n
      requires descs[b].epoch < EPOCH_CEILING
      modifies descs, producer`block, producer`epoch, producer`owned
      ensures Valid() && producer.owned == WriteToken && producer.block == b && producer.epoch == descs[b].epoch
      ensures forall j :: 0 <= j < n && j != b ==> descs[j] == old(descs[j])
      ensures descs[b] == old(descs[b]).(epoch := old(descs[b]).epoch + 1)
    {
      WriterApart();
      descs[b] := descs[b].(epoch := descs[b].epoch + 1);
      producer.block, producer.epoch, producer.owned := b, descs[b].epoch, WriteToken;
      forall t | reclaimed <= t < published ensures Live(t) { assert old(Live(t)); }
    }

    /** A store into the reserved span. */
    method WriteByte(at: nat, value: Byte)
      requires Valid() && producer.owned == WriteToken && at < maxPayload
      modifies payloads
      ensures Valid() && history == old(history)
      ensures payloads[producer.block] == Patch(old(payloads[producer.block]), at, value)
    {
      WriterApart();
      payloads[producer.block] := Patch(payloads[producer.block], at, value);
      forall t | reclaimed <= t < published ensures Live(t) { assert old(Live(t)); }
    }

    /** The descriptor of the reserved block, before it is published. */
    method Describe(length: nat, mtype: nat, id: nat)
      requires Valid() && producer.owned == WriteToken && length <= maxPayload
      modifies descs
      ensures Valid()
      ensures forall j :: 0 <= j < n && j != producer.block ==> descs[j] == old(descs[j])
      ensures descs[producer.block] == old(descs[producer.block]).(length := length, mtype := mtype, id := id,
        checksum := ChecksumOf(Config(n, maxPayload, checksummed), Take(payloads[producer.block], length)))
    {
      var b := producer.block;
      WriterApart();
      descs[b] := descs[b].(length := length, mtype := mtype, id := id,
        checksum := ChecksumOf(Config(n, maxPayload, checksummed), Take(payloads[b], length)));
      forall t | reclaimed <= t < published ensures Live(t) { assert old(Live(t)); }
    }

    /** A commit that gets past its checks, whether or not the peer can be notified. */
    ghost predicate Committing(length: nat, admitted: bool)
      reads this, producer
    {
      producer.owned == WriteToken && length <= maxPayload && !producer.poisoned && admitted
    }

    /** `notified` is whether the peer could be notified, which is tried after the
        publication: an OS error does not take it back. */
    method Commit(length: nat, mtype: nat, id: nat, admitted: bool, notified: bool) returns (r: Status)
      requires Valid()
      modifies this`published, this`history, descs, producer
      ensures Valid()
      ensures r.Ok? || r.OsError? || r.InvalidLease? || r.InvalidArgument? || r.Retired?
      ensures r == InvalidLease <==> old(producer.owned) != WriteToken
      ensures r == InvalidArgument <==> old(producer.owned) == WriteToken && length > maxPayload
      ensures r == Ok <==> old(Committing(length, admitted)) && notified
      ensures r == OsError <==> old(Committing(length, admitted)) && !notified
      ensures old(Committing(length, admitted)) ==>
        Contents() == old(Contents())
          + [Message(length, mtype, id, old(producer.epoch), old(payloads[producer.block])[..length])]
      ensures old(Committing(length, admitted)) ==> producer.owned == NoToken && published == old(published) + 1
      ensures !old(Committing(length, admitted)) ==>
        history == old(history) && published == old(published) && producer.owned == old(producer.owned)
    {
      if producer.owned != WriteToken { return InvalidLease; }
      if length > maxPayload { return InvalidArgument; }
      if producer.poisoned || !admitted { return Retired; }
      if descs[producer.block].epoch != producer.epoch { assert false; }
      Describe(length, mtype, id);
      StorePublished();
      return if notified then Ok else OsError;
    }

    /** The release store, and the local bookkeeping after it. */
    method StorePublished()
      requires Valid() && producer.owned == WriteToken && descs[producer.block].length <= maxPayload
      requires var b := producer.block;
        descs[b].checksum == ChecksumOf(Config(n, maxPayload, checksummed), Take(payloads[b], descs[b].length))
      modifies this`published, this`history, producer`cursor, producer`owned
      ensures Valid() && producer.owned == NoToken && published == old(published) + 1
      ensures history == old(history) + [MessageOf(descs[producer.block], payloads[producer.block])]
    {
      var next := Inc(producer.cursor);
      history := history + [MessageOf(descs[producer.block], payloads[producer.block])];
      published := next;
      producer.cursor, producer.owned := next, NoToken;
      forall t | reclaimed <= t < published ensures Live(t) {
        if t < old(published) { assert old(Live(t)); }
      }
    }

    /** The reservation's epoch stays consumed; nothing is published. */
    method AbortWrite(admitted: bool) returns (r: Status)
      requires Valid()
      modifies producer
      ensures Valid() && history == old(history)
      ensures (r.Ok? || r.InvalidLease? || r.Retired?) && (r == InvalidLease <==> old(producer.owned) != WriteToken)
      ensures r == Ok <==> old(producer.owned) == WriteToken && !old(producer.poisoned) && admitted
      ensures r == Ok ==> producer.owned == NoToken
      ensures r != Ok ==> producer.owned == old(producer.owned)
    {
      if producer.owned != WriteToken { return InvalidLease; }
      if producer.poisoned || !admitted { return Retired; }
      if descs[producer.block].epoch != producer.epoch { assert false; }
      producer.owned := NoToken;
      return Ok;
    }

    /** Claims the front of the FIFO, or observes an instant when it was empty.
        The three integrity branches of the C code are dead. */
    method Borrow(observed: nat, admitted: bool) returns (r: Status)
      requires Valid() && consumer.cachedPeer <= observed <= published
      modifies consumer
      ensures Valid() && history == old(history)
      ensures r.Ok? || r.NoData? || r.Busy? || r.Retired?
      ensures r == Busy <==> old(consumer.owned) != NoToken
      ensures r == Retired <==> old(consumer.owned) == NoToken && (old(consumer.poisoned) || !admitted)
      ensures r == NoData <==>
        old(consumer.owned) == NoToken && !old(consumer.poisoned) && admitted && observed == reclaimed
      ensures r != Ok ==> consumer.owned == old(consumer.owned)
      ensures r == Ok ==> consumer.owned == ReadToken && Contents() != [] && consumer.span == Contents()[0]
      ensures r == Ok ==>
        consumer.block < n && consumer.span == MessageOf(descs[consumer.block], payloads[consumer.block])
      ensures consumer.poisoned == old(consumer.poisoned)
    {
      if consumer.owned != NoToken { return Busy; }
      if consumer.poisoned || !admitted { return Retired; }
      var peer, c := consumer.cachedPeer, consumer.cursor;
      if peer <= c {
        peer := observed;
        consumer.cachedPeer := peer;
      }
      if peer < c || peer > Limit(n) || peer - c > n { assert false; }
      if peer == c { return NoData; }
      if c >= Limit(n) { assert false; }
      var b := Slot(n, c);
      assert Live(c);
      var d := descs[b];
      if d.epoch == 0 || d.epoch > EPOCH_CEILING || d.length > maxPayload { assert false; }
      if d.checksum != ChecksumOf(Config(n, maxPayload, checksummed), Take(payloads[b], d.length)) { assert false; }
      consumer.block, consumer.epoch, consumer.owned := b, d.epoch, ReadToken;
      consumer.span := MessageOf(d, payloads[b]);
      return Ok;
    }

    ghost predicate Releasing(admitted: bool)
      reads this, consumer
    {
      consumer.owned == ReadToken && !consumer.poisoned && admitted
    }

    /** `notified` as for a commit: the slot is given back before the peer is told. */
    method Release(admitted: bool, notified: bool) returns (r: Status)
      requires Valid()
      modifies this`reclaimed, consumer
      ensures Valid() && history == old(history)
      ensures r.Ok? || r.OsError? || r.InvalidLease? || r.Retired?
      ensures r == InvalidLease <==> old(consumer.owned) != ReadToken
      ensures r == Ok <==> old(Releasing(admitted)) && notified
      ensures r == OsError <==> old(Releasing(admitted)) && !notified
      ensures old(Releasing(admitted)) ==>
        && old(Contents()) != [] && old(consumer.span) == old(Contents())[0]
        && Contents() == old(Contents())[1..] && consumer.owned == NoToken
      ensures !old(Releasing(admitted)) ==> reclaimed == old(reclaimed) && consumer.owned == old(consumer.owned)
    {
      if consumer.owned != ReadToken { return InvalidLease; }
      if consumer.poisoned || !admitted { return Retired; }
      if descs[consumer.block].epoch != consumer.epoch { assert false; }
      DropNext(history, reclaimed);
      StoreReclaimed();
      return if notified then Ok else OsError;
    }

    /** The other release store, and the local bookkeeping after it. */
    method StoreReclaimed()
      requires Valid() && consumer.owned == ReadToken
      modifies this`reclaimed, consumer`cursor, consumer`owned
      ensures Valid() && consumer.owned == NoToken && reclaimed == old(reclaimed) + 1 <= published
      ensures consumer.span == history[old(reclaimed)]
    {
      var next := Inc(consumer.cursor);
      reclaimed := next;
      consumer.cursor, consumer.owned := next, NoToken;
      forall t | reclaimed <= t < published ensures Live(t) { assert old(Live(t)); }
    }
  }
}
