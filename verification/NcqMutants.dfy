/** The wrong protocols of formal/models/ncq.py: for each of its mutations, the states
    in which the mutated step leaves the pool invariant.  They show that the invariant
    is not kept for want of content.  */
module NcqMutants {
  import opened Words
  import opened NcqQueue
  import opened Crc
  import opened Core
  import opened NcqPool
  import opened NcqInvariant
  import opened NcqSafety

  /** A saved claim whose ticket is no longer the head. */
  ghost predicate LostClaim(c: Config, s: Pool, i: nat) {
    && Inv(c, s) && i < |s.conns| && s.conns[i].pc.ClaimHead?
    && TheQueue(s, QueueOf(s.conns[i].role)).head != s.conns[i].pc.h
  }

  /** split_head: the head is stored without being compared. */
  function SplitHead(c: Config, s: Pool, i: nat): Pool
    requires c.n > 0 && i < |s.conns| && s.conns[i].pc.ClaimHead?
  {
    var k := s.conns[i];
    var w := QueueOf(k.role);
    AtClaimHead(c, WithQueue(s, w, TheQueue(s, w).(head := k.pc.h)), i, k, k.pc.h, k.pc.e)
  }

  lemma {:induction false} SavedBlock(c: Config, s: Pool, i: nat)
    requires LostClaim(c, s, i)
    ensures var k := s.conns[i]; var q := TheQueue(s, QueueOf(k.role));
      k.pc.h < q.head && Slot(c.n, k.pc.e) < c.n && !Holds(k)
  {
    assert ConnOk(c, s, i);
    var h := s.conns[i].pc.h;
    EntryParts(c.n, h, TheQueue(s, QueueOf(s.conns[i].role)).log[h]);
  }

  /** Unless the block was abandoned with the generation, its token now has two places,
      or a message is read twice. */
  lemma {:induction false} SplitHeadBreaks(c: Config, s: Pool, i: nat)
    requires LostClaim(c, s, i)
    requires var b := Slot(c.n, s.conns[i].pc.e); b < |s.place| ==> s.place[b] != Abandoned
    ensures !Inv(c, SplitHead(c, s, i))
  {
    SavedBlock(c, s, i);
    var s', b := SplitHead(c, s, i), Slot(c.n, s.conns[i].pc.e);
    assert BlockOk(c, s, b);
    if s.conns[i].role.Consumer? {
      assert |s'.delivered| == |s.delivered| + 1;
    } else {
      match s.place[b]
      case InFree(t) => assert !FreeMember(s', t);
      case InReady(t) => assert !ReadyMember(s', t);
      case Held(j) => assert !ConnOk(c, s', j);
    }
  }

  /** stale_head_retry: the ticket is refreshed and the entry kept. */
  function StaleRetry(s: Pool, i: nat): Pool
    requires i < |s.conns| && s.conns[i].pc.ClaimHead?
  {
    var k := s.conns[i];
    Put(s, i, Goto(k, ClaimHead(TheQueue(s, QueueOf(k.role)).head, k.pc.e)))
  }

  /** It is harmless exactly when the kept entry happens to be that of the new ticket. */
  lemma {:induction false} StaleRetryBreaks(c: Config, s: Pool, i: nat)
    requires LostClaim(c, s, i)
    ensures var q := TheQueue(s, QueueOf(s.conns[i].role));
      Inv(c, StaleRetry(s, i)) <==> q.head < |q.log| && s.conns[i].pc.e == Entry(c.n, q.head, q.log[q.head])
  {
    assert ConnOk(c, s, i);
    var k, q := s.conns[i], TheQueue(s, QueueOf(s.conns[i].role));
    var k' := Goto(k, ClaimHead(q.head, k.pc.e));
    if q.head < |q.log| && k.pc.e == Entry(c.n, q.head, q.log[q.head]) {
      ConnStep(c, s, i, k');
    } else {
      assert !ConnOk(c, StaleRetry(s, i), i);
    }
  }

  /** overwrite_current: a lost install adopts the winner's entry and tries again. */
  function Overwrite(c: Config, s: Pool, i: nat): Pool
    requires c.n > 0 && i < |s.conns| && s.conns[i].pc.InstallCell?
  {
    var k := s.conns[i];
    Put(s, i, Goto(k, InstallCell(k.pc.w, k.pc.t, Cell(c.n, TheQueue(s, k.pc.w), k.pc.t))))
  }

  lemma {:induction false} OverwriteBreaks(c: Config, s: Pool, i: nat)
    requires Inv(c, s) && i < |s.conns| && s.conns[i].pc.InstallCell?
    requires Cell(c.n, TheQueue(s, s.conns[i].pc.w), s.conns[i].pc.t) != s.conns[i].pc.e
    ensures !Inv(c, Overwrite(c, s, i))
  {
    assert ConnOk(c, s, i);
    assert !ConnOk(c, Overwrite(c, s, i), i);
  }

  /** tail_before_entry: the tail moves when the install is only prepared. */
  function TailFirst(c: Config, s: Pool, i: nat): Pool
    requires c.n > 0 && i < |s.conns| && s.conns[i].pc.LoadCell?
  {
    var k := s.conns[i];
    var q := TheQueue(s, k.pc.w);
    Put(WithQueue(s, k.pc.w, q.(tail := Inc(k.pc.t))), i, AtLoadCell(c, k, q, k.pc.w, k.pc.t))
  }

  lemma {:induction false} TailFirstBreaks(c: Config, s: Pool, i: nat)
    requires Inv(c, s) && i < |s.conns| && s.conns[i].pc.LoadCell?
    requires var k := s.conns[i]; Older(c.n, k.pc.t, Cell(c.n, TheQueue(s, k.pc.w), k.pc.t))
    ensures !Inv(c, TailFirst(c, s, i))
  {
    assert ConnOk(c, s, i);
    var k := s.conns[i];
    Observe(c.n, TheQueue(s, k.pc.w), k.pc.t);
    assert TheQueue(TailFirst(c, s, i), k.pc.w).tail == |TheQueue(s, k.pc.w).log| + 1;
  }

  /** post_lp_write: a descriptor is written after its block was published. */
  lemma {:induction false} LateWriteBreaks(c: Config, s: Pool, i: nat, d: Desc)
    requires Inv(c, s) && i < |s.conns| && s.conns[i].pc.AdvanceTail?
    requires var b := s.conns[i].block; b < |s.place| && s.place[b].InReady?
    requires var b := s.conns[i].block; MessageOf(d, s.payload[b]) != MessageOf(s.desc[b], s.payload[b])
    ensures !Inv(c, s.(desc := s.desc[s.conns[i].block := d]))
  {
    var b := s.conns[i].block;
    assert BlockOk(c, s, b);
    assert !BlockOk(c, s.(desc := s.desc[b := d]), b);
  }

  /** early_return: the block goes back to QF while its reader still uses it. */
  lemma {:induction false} EarlyReturnBreaks(c: Config, s: Pool, i: nat, q: Queue)
    requires Inv(c, s) && i < |s.conns| && s.conns[i].owned.ReadToken? && s.conns[i].pc.Idle?
    requires s.conns[i].block < |s.place|
    ensures !Inv(c, s.(free := q, place := s.place[s.conns[i].block := InFree(|s.free.log|)]))
  {
    var s' := s.(free := q, place := s.place[s.conns[i].block := InFree(|s.free.log|)]);
    assert !ConnOk(c, s', i);
  }
}
