/** The inductive invariant of the NCQ pool: queue windows, the token ledger, the
    descriptor phase of every block, and what each program counter may remember. */
module NcqInvariant {
  import opened Words
  import opened NcqQueue
  import opened Crc
  import opened Core
  import opened NcqPool

  predicate Holds(k: Conn) { !k.owned.NoToken? && !k.pc.AdvanceTail? }

  predicate OwnFits(k: Conn) {
    k.owned == (if k.role.Producer? then WriteToken else ReadToken)
  }

  // ----------------------------------------------------- what a connection knows

  predicate OpOk(c: Config, k: Conn, op: Op) {
    && !k.poisoned
    && match op
       case Reserve => k.role.Producer? && k.owned.NoToken?
       case Borrow => k.role.Consumer? && k.owned.NoToken?
       case Commit(length, mtype, id) => k.role.Producer? && k.owned.WriteToken? && length <= c.maxPayload
       case Abort => k.role.Producer? && k.owned.WriteToken?
       case Release => k.role.Consumer? && k.owned.ReadToken?
  }

  predicate Seeking(k: Conn) { !k.poisoned && k.owned.NoToken? && k.serial < U64 - 1 }

  predicate Giving(k: Conn, w: Which) {
    !k.poisoned && OwnFits(k) && (w.Ready? ==> k.role.Producer?)
  }

  /** Saved tickets never exceed the counter they were read from, and a saved
      entry is the one installed for its ticket. */
  predicate PcOk(c: Config, k: Conn, free: Queue, ready: Queue)
    requires c.n > 0
  {
    var q := if k.role.Producer? then free else ready;
    && k.result != Integrity
    && k.serial <= U64 - 1
    && (k.owned.NoToken? || OwnFits(k))
    && match k.pc
       case Idle => true
       case CheckGate(op) => OpOk(c, k, op)
       case CheckFailure(op) => OpOk(c, k, op)
       case LoadHead => Seeking(k)
       case LoadEntry(h) => Seeking(k) && h <= q.head
       case ClaimHead(h, e) =>
         Seeking(k) && h <= q.head && h < |q.log| && e == Entry(c.n, h, q.log[h])
       case Validate => !k.poisoned && OwnFits(k)
       case StoreReserved => !k.poisoned && OwnFits(k) && k.role.Producer?
       case Describe(length, mtype, id) =>
         !k.poisoned && OwnFits(k) && k.role.Producer? && length <= c.maxPayload
       case StoreCommitted => !k.poisoned && OwnFits(k) && k.role.Producer?
       case StoreEmpty => !k.poisoned && OwnFits(k)
       case LoadTail(w) => Giving(k, w)
       case LoadCell(w, t) => Giving(k, w) && TailSaved(c, if w.Free? then free else ready, t)
       case InstallCell(w, t, e) =>
         && Giving(k, w) && TailSaved(c, if w.Free? then free else ready, t)
         && OlderSaved(c, if w.Free? then free else ready, t, e)
       case HelpTail(w, t) => Giving(k, w) && t < |(if w.Free? then free else ready).log|
       case AdvanceTail(w, t) => Giving(k, w) && t < |(if w.Free? then free else ready).log|
       case RaiseFailure(reason) => k.poisoned && 1 <= reason <= FAILURE_AUTHORITY
       case RequestRetire => k.poisoned
  }

  predicate TailSaved(c: Config, q: Queue, t: nat) { t < Limit(c.n) && t <= q.tail }

  predicate OlderSaved(c: Config, q: Queue, t: nat, e: nat)
    requires c.n > 0
  {
    && Older(c.n, t, e)
    && c.n <= t && t - c.n < |q.log| && e == Entry(c.n, t - c.n, q.log[t - c.n])
  }

  // ------------------------------------------------------- what a block contains

  predicate EpochOk(epoch: nat) { 1 <= epoch <= EPOCH_CEILING }

  predicate FreeOk(d: Desc) { d.epoch <= EPOCH_CEILING && d.status == StatusWord(d.epoch, EMPTY) }

  predicate DescribedOk(c: Config, d: Desc, bytes: seq<Byte>) {
    && EpochOk(d.epoch)
    && d.length <= c.maxPayload
    && d.checksum == ChecksumOf(c, Take(bytes, d.length))
  }

  predicate ReadyOk(c: Config, d: Desc, bytes: seq<Byte>) {
    DescribedOk(c, d, bytes) && d.status == StatusWord(d.epoch, COMMITTED)
  }

  predicate ReadsTicket(c: Config, k: Conn, m: Message, published: seq<Message>) {
    c.n <= k.ticket && k.ticket - c.n < |published| && published[k.ticket - c.n] == m
  }

  /** The token a connection holds, phase by phase.  A poisoned holder is bound
      to nothing: it can only abandon. */
  predicate TokenOk(c: Config, k: Conn, d: Desc, bytes: seq<Byte>, published: seq<Message>) {
    k.poisoned ||
    match k.pc
    case Validate =>
      if k.role.Producer? then FreeOk(d)
      else ReadyOk(c, d, bytes) && ReadsTicket(c, k, MessageOf(d, bytes), published)
    case StoreReserved => d.epoch == k.epoch && EpochOk(k.epoch)
    case CheckGate(op) => HoldingOk(c, k, d, bytes, published) && OfferOk(k, op, bytes)
    case CheckFailure(op) => HoldingOk(c, k, d, bytes, published) && OfferOk(k, op, bytes)
    case Describe(length, mtype, id) =>
      HoldingOk(c, k, d, bytes, published) && OfferOk(k, Commit(length, mtype, id), bytes)
    case StoreCommitted =>
      DescribedOk(c, d, bytes) && d.epoch == k.epoch && MessageOf(d, bytes) == k.offer
    case LoadTail(w) => GivenOk(c, k, w, d, bytes)
    case LoadCell(w, t) => GivenOk(c, k, w, d, bytes)
    case InstallCell(w, t, e) => GivenOk(c, k, w, d, bytes)
    case HelpTail(w, t) => GivenOk(c, k, w, d, bytes)
    case _ => HoldingOk(c, k, d, bytes, published)
  }

  predicate HoldingOk(c: Config, k: Conn, d: Desc, bytes: seq<Byte>, published: seq<Message>) {
    && EpochOk(k.epoch)
    && if k.role.Producer? then Matches(k, d, RESERVED)
       else Matches(k, d, CONSUMED) && k.span == MessageOf(d, bytes) && ReadsTicket(c, k, k.span, published)
  }

  predicate OfferOk(k: Conn, op: Op, bytes: seq<Byte>) {
    op.Commit? ==> k.offer == Message(op.length, op.mtype, op.id, k.epoch, Take(bytes, op.length))
  }

  predicate GivenOk(c: Config, k: Conn, w: Which, d: Desc, bytes: seq<Byte>) {
    match w
    case Free => FreeOk(d)
    case Ready => ReadyOk(c, d, bytes) && MessageOf(d, bytes) == k.offer
  }

  predicate ConnOk(c: Config, s: Pool, i: nat)
    requires c.n > 0 && i < |s.conns|
  {
    var k := s.conns[i];
    && PcOk(c, k, s.free, s.ready)
    && (Holds(k) ==>
          && k.block < |s.place| && s.place[k.block] == Held(i)
          && k.block < |s.desc| && k.block < |s.payload|
          && (k.role.Consumer? ==>
                c.n <= k.ticket < s.ready.head && k.ticket < |s.ready.log| && s.ready.log[k.ticket] == k.block)
          && TokenOk(c, k, s.desc[k.block], s.payload[k.block], s.published))
  }

  // ---------------------------------------------------------------------- ledger

  predicate BlockOk(c: Config, s: Pool, b: nat)
    requires b < |s.place| && b < |s.desc| && b < |s.payload|
  {
    && |s.payload[b]| == c.maxPayload && s.desc[b].epoch <= EPOCH_CEILING
    && match s.place[b]
       case InFree(t) => s.free.head <= t < |s.free.log| && s.free.log[t] == b && FreeOk(s.desc[b])
       case InReady(t) =>
         && s.ready.head <= t < |s.ready.log| && s.ready.log[t] == b
         && ReadyOk(c, s.desc[b], s.payload[b])
         && c.n <= t && t - c.n < |s.published|
         && s.published[t - c.n] == MessageOf(s.desc[b], s.payload[b])
       case Held(i) => i < |s.conns| && Holds(s.conns[i]) && s.conns[i].block == b
       case Abandoned => s.gate >= RETIRE_REQUESTED
  }

  predicate FreeMember(s: Pool, t: nat)
    requires t < |s.free.log|
  {
    s.free.log[t] < |s.place| && s.place[s.free.log[t]] == InFree(t)
  }

  predicate ReadyMember(s: Pool, t: nat)
    requires t < |s.ready.log|
  {
    s.ready.log[t] < |s.place| && s.place[s.ready.log[t]] == InReady(t)
  }

  ghost predicate Shape(c: Config, s: Pool) {
    && c.n > 0
    && |s.desc| == |s.payload| == |s.place| == c.n
    && READY <= s.gate <= SEALED
    && QueueInv(c.n, s.free) && QueueInv(c.n, s.ready)
    && c.n <= s.ready.head
    && |s.ready.log| == c.n + |s.published|
    && s.delivered == s.published[..s.ready.head - c.n]
  }

  ghost predicate Inv(c: Config, s: Pool) {
    && Shape(c, s)
    && (forall t :: s.free.head <= t < |s.free.log| ==> FreeMember(s, t))
    && (forall t :: s.ready.head <= t < |s.ready.log| ==> ReadyMember(s, t))
    && (forall b :: 0 <= b < c.n ==> BlockOk(c, s, b))
    && (forall i :: 0 <= i < |s.conns| ==> ConnOk(c, s, i))
  }

  // ------------------------------------------------------------------ pigeonhole

  ghost function Below(n: nat): (r: set<nat>)
    ensures |r| == n && forall x: nat :: x in r <==> x < n
  {
    if n == 0 then {} else Below(n - 1) + {n - 1}
  }

  ghost function Elements(xs: seq<nat>): (r: set<nat>)
    requires forall i, j :: 0 <= i < j < |xs| ==> xs[i] != xs[j]
    ensures |r| == |xs| && forall x :: x in r <==> x in xs
  {
    if |xs| == 0 then {}
    else
      var last := |xs| - 1;
      assert xs == xs[..last] + [xs[last]];
      Elements(xs[..last]) + {xs[last]}
  }

  lemma {:induction false} SubsetSize(a: set<nat>, b: set<nat>)
    requires a <= b
    ensures |a| <= |b|
  {
    if a != {} {
      var x :| x in a;
      SubsetSize(a - {x}, b - {x});
    }
  }

  lemma {:induction false} Pigeonhole(n: nat, xs: seq<nat>, b: nat)
    requires b < n
    requires forall i :: 0 <= i < |xs| ==> xs[i] < n && xs[i] != b
    requires forall i, j :: 0 <= i < j < |xs| ==> xs[i] != xs[j]
    ensures |xs| < n
  {
    SubsetSize(Elements(xs), Below(n) - {b});
  }

  /** No code checks for a full queue: a block outside both queues is enough. */
  lemma {:induction false} NotFull(c: Config, s: Pool, w: Which, b: nat)
    requires Inv(c, s) && b < c.n && !s.place[b].InFree? && !s.place[b].InReady?
    ensures |TheQueue(s, w).log| < TheQueue(s, w).head + c.n
  {
    var q := TheQueue(s, w);
    var xs := Contents(q);
    forall i | 0 <= i < |xs| ensures xs[i] < c.n && xs[i] != b && Ticket(s.place[xs[i]]) == q.head + i {
      if w.Free? { assert FreeMember(s, q.head + i); } else { assert ReadyMember(s, q.head + i); }
    }
    Pigeonhole(c.n, xs, b);
  }

  function Ticket(p: Place): nat {
    match p case InFree(t) => t case InReady(t) => t case _ => 0
  }

  // -------------------------------------------------------------- frame reasoning

  ghost predicate Bounded(c: Config, s: Pool) {
    && |s.desc| == |s.payload| == c.n
    && forall b :: 0 <= b < c.n ==> |s.payload[b]| == c.maxPayload && s.desc[b].epoch <= EPOCH_CEILING
  }

  predicate Grows(q: Queue, q': Queue) {
    q.head <= q'.head && q.tail <= q'.tail && q.log <= q'.log
  }

  lemma {:induction false} PcOkGrows(c: Config, k: Conn, free: Queue, ready: Queue, free': Queue, ready': Queue)
    requires c.n > 0 && PcOk(c, k, free, ready) && Grows(free, free') && Grows(ready, ready')
    ensures PcOk(c, k, free', ready')
  {
  }

  lemma {:induction false} TokenOkGrows(c: Config, k: Conn, d: Desc, bytes: seq<Byte>,
                                          published: seq<Message>, published': seq<Message>)
    requires TokenOk(c, k, d, bytes, published) && published <= published'
    ensures TokenOk(c, k, d, bytes, published')
  {
  }

  /** A step that leaves queues and ledger alone and writes only the block its
      connection holds. */
  lemma {:induction false} PrivateStep(c: Config, s: Pool, s': Pool, i: nat)
    requires Inv(c, s) && i < |s.conns| && |s'.conns| == |s.conns|
    requires s' == s.(conns := s.conns[i := s'.conns[i]], desc := s'.desc, payload := s'.payload,
                      gate := s'.gate, failure := s'.failure)
    requires s.gate <= s'.gate <= SEALED
    requires |s'.desc| == |s'.payload| == c.n
    requires Holds(s.conns[i]) <==> Holds(s'.conns[i])
    requires Holds(s.conns[i]) ==> s'.conns[i].block == s.conns[i].block
    requires forall b :: 0 <= b < c.n && !(Holds(s.conns[i]) && b == s.conns[i].block)
               ==> s'.desc[b] == s.desc[b] && s'.payload[b] == s.payload[b]
    requires Bounded(c, s')
    requires ConnOk(c, s', i)
    ensures Inv(c, s')
  {
    assert ConnOk(c, s, i);
    forall t | s'.free.head <= t < |s'.free.log| ensures FreeMember(s', t) {
      assert FreeMember(s, t);
    }
    forall t | s'.ready.head <= t < |s'.ready.log| ensures ReadyMember(s', t) {
      assert ReadyMember(s, t);
    }
    forall b | 0 <= b < c.n ensures BlockOk(c, s', b) {
      assert BlockOk(c, s, b);
    }
    forall j | 0 <= j < |s'.conns| ensures ConnOk(c, s', j) {
      assert ConnOk(c, s, j);
    }
  }

  lemma {:induction false} TailConn(c: Config, s: Pool, w: Which, t: nat, j: nat)
    requires Inv(c, s) && t < |TheQueue(s, w).log| && j < |s.conns|
    requires TheQueue(s, w).tail <= TailCas(TheQueue(s, w), t).tail
    ensures ConnOk(c, WithQueue(s, w, TailCas(TheQueue(s, w), t)), j)
  {
    var s' := WithQueue(s, w, TailCas(TheQueue(s, w), t));
    assert ConnOk(c, s, j);
    PcOkGrows(c, s.conns[j], s.free, s.ready, s'.free, s'.ready);
  }

  lemma {:induction false} TailMembers(c: Config, s: Pool, w: Which, t: nat)
    requires Inv(c, s)
    ensures var s' := WithQueue(s, w, TailCas(TheQueue(s, w), t));
      && (forall u :: s'.free.head <= u < |s'.free.log| ==> FreeMember(s', u))
      && (forall u :: s'.ready.head <= u < |s'.ready.log| ==> ReadyMember(s', u))
      && (forall b :: 0 <= b < c.n ==> BlockOk(c, s', b))
  {
    var s' := WithQueue(s, w, TailCas(TheQueue(s, w), t));
    forall u | s'.free.head <= u < |s'.free.log| ensures FreeMember(s', u) { assert FreeMember(s, u); }
    forall u | s'.ready.head <= u < |s'.ready.log| ensures ReadyMember(s', u) { assert ReadyMember(s, u); }
    forall b | 0 <= b < c.n ensures BlockOk(c, s', b) { assert BlockOk(c, s, b); }
  }

  /** Tail help changes no ticket's meaning. */
  lemma {:induction false} TailStep(c: Config, s: Pool, w: Which, t: nat)
    requires Inv(c, s) && t < |TheQueue(s, w).log|
    ensures Inv(c, WithQueue(s, w, TailCas(TheQueue(s, w), t)))
  {
    var s' := WithQueue(s, w, TailCas(TheQueue(s, w), t));
    TailCasKeeps(c.n, TheQueue(s, w), t);
    TailMembers(c, s, w, t);
    forall j | 0 <= j < |s'.conns| ensures ConnOk(c, s', j) { TailConn(c, s, w, t, j); }
  }
}
