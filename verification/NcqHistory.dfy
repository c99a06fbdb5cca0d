/** Whole histories of the pool: which commit calls published, in which order, and
    under which epochs.

    A monitor is folded over a run.  It sees the actions only from outside - calls
    accepted, installs, answers - and no branch of the pool reads it.  */
module NcqHistory {
  import opened Words
  import opened NcqQueue
  import opened Crc
  import opened Core
  import opened NcqPool
  import opened NcqInvariant
  import opened NcqSafety
  import opened NcqTheorems
  import NcqCalls

  datatype Answer = Open | Answered(status: Status)

  /** A commit call that passed its entry checks, with the message it named. */
  datatype Call = Call(conn: nat, message: Message, use: Use, answer: Answer)

  /** How a use ended: its block was installed in QR by a commit call, or back in
      QF by an abort. */
  datatype End = Published(use: Use, call: nat) | Aborted(use: Use)

  /** `current` maps a connection to its unanswered commit call. */
  datatype History = History(reserved: seq<Use>, ends: seq<End>, calls: seq<Call>, current: map<nat, nat>)

  const NOTHING := History([], [], [], map[])

  function UseOf(k: Conn): Use { Use(k.block, k.epoch) }

  predicate Accepts(c: Config, s: Pool, a: Action)
    requires c.n > 0 && Enabled(c, s, a)
  {
    a.Invoke? && a.op.Commit? && Apply(c, s, a).conns[a.i].pc.CheckGate?
  }

  function Accept(s: Pool, h: History, i: nat, op: Op): History
    requires i < |s.conns| && op.Commit?
  {
    var call := Call(i, CommitMessage(s, i, op), UseOf(s.conns[i]), Open);
    h.(calls := h.calls + [call], current := h.current[i := |h.calls|])
  }

  /** The end an install makes; a consumer's install returns a block already read. */
  function EndBy(h: History, i: nat, k: Conn, w: Which): seq<End> {
    match w
    case Ready => if i in h.current then [Published(UseOf(k), h.current[i])] else []
    case Free => if k.role.Producer? then [Aborted(UseOf(k))] else []
  }

  function Answering(h: History, i: nat, r: Status): History {
    if i in h.current && h.current[i] < |h.calls| then
      var m := h.current[i];
      h.(calls := h.calls[m := h.calls[m].(answer := Answered(r))], current := h.current - {i})
    else h
  }

  function WatchStep(h: History, i: nat, k: Conn, k': Conn, ev: Event): History {
    if ev.Enqueued? then h.(ends := h.ends + EndBy(h, i, k, ev.w))
    else if k.pc.Validate? && k'.pc.StoreReserved? then h.(reserved := h.reserved + [UseOf(k')])
    else if k'.pc.Idle? then Answering(h, i, k'.result)
    else h
  }

  function Watch(c: Config, s: Pool, h: History, a: Action): History
    requires c.n > 0 && Enabled(c, s, a)
  {
    match a
    case Invoke(i, op) => if Accepts(c, s, a) then Accept(s, h, i, op) else h
    case Step(i) =>
      if i < |Advance(c, s, i).conns| then WatchStep(h, i, s.conns[i], Advance(c, s, i).conns[i], EventOf(c, s, a))
      else h
    case _ => h
  }

  ghost function Watched(c: Config, s: Pool, h: History, acts: seq<Action>): History
    requires c.n > 0 && Run(c, s, acts)
    decreases |acts|
  {
    if |acts| == 0 then h else Watched(c, Apply(c, s, acts[0]), Watch(c, s, h, acts[0]), acts[1..])
  }

  // ---------------------------------------------------------------- what is recorded

  /** How often a call published. */
  function Publications(ends: seq<End>, m: nat): nat
    decreases |ends|
  {
    if |ends| == 0 then 0
    else
      var e := ends[|ends| - 1];
      Publications(ends[..|ends| - 1], m) + (if e.Published? && e.call == m then 1 else 0)
  }

  predicate CallsKnown(ends: seq<End>, calls: seq<Call>) {
    forall k :: 0 <= k < |ends| && ends[k].Published? ==> ends[k].call < |calls|
  }

  /** The messages of the publishing calls, in the order of their installs. */
  function Messages(ends: seq<End>, calls: seq<Call>): seq<Message>
    requires CallsKnown(ends, calls)
    decreases |ends|
  {
    if |ends| == 0 then []
    else
      var e := ends[|ends| - 1];
      var before := Messages(ends[..|ends| - 1], calls);
      if e.Published? then before + [calls[e.call].message] else before
  }

  function PublishedUses(ends: seq<End>): seq<Use>
    decreases |ends|
  {
    if |ends| == 0 then []
    else
      var e := ends[|ends| - 1];
      var before := PublishedUses(ends[..|ends| - 1]);
      if e.Published? then before + [e.use] else before
  }

  function EndUses(ends: seq<End>): (xs: seq<Use>)
    ensures |xs| == |ends| && forall k :: 0 <= k < |ends| ==> xs[k] == ends[k].use
  {
    seq(|ends|, k requires 0 <= k < |ends| => ends[k].use)
  }

  lemma {:induction false} MessagesFrame(ends: seq<End>, calls: seq<Call>, calls': seq<Call>)
    requires CallsKnown(ends, calls) && |calls| <= |calls'|
    requires forall m :: 0 <= m < |calls| ==> calls'[m].message == calls[m].message
    ensures CallsKnown(ends, calls') && Messages(ends, calls') == Messages(ends, calls)
    decreases |ends|
  {
    if |ends| > 0 { MessagesFrame(ends[..|ends| - 1], calls, calls'); }
  }

  lemma {:induction false} MessagesAppend(ends: seq<End>, e: End, calls: seq<Call>)
    requires CallsKnown(ends, calls) && (e.Published? ==> e.call < |calls|)
    ensures CallsKnown(ends + [e], calls)
    ensures Messages(ends + [e], calls)
         == Messages(ends, calls) + if e.Published? then [calls[e.call].message] else []
    ensures PublishedUses(ends + [e]) == PublishedUses(ends) + if e.Published? then [e.use] else []
  {
    assert (ends + [e])[..|ends|] == ends;
  }

  lemma {:induction false} PublicationsAppend(ends: seq<End>, e: End, m: nat)
    ensures Publications(ends + [e], m) == Publications(ends, m) + if e.Published? && e.call == m then 1 else 0
  {
    assert (ends + [e])[..|ends|] == ends;
  }

  lemma {:induction false} NoPublications(ends: seq<End>, calls: seq<Call>, m: nat)
    requires CallsKnown(ends, calls) && |calls| <= m
    ensures Publications(ends, m) == 0
    decreases |ends|
  {
    if |ends| > 0 { NoPublications(ends[..|ends| - 1], calls, m); }
  }

  lemma {:induction false} PublishedAmongEnds(ends: seq<End>, k: nat) returns (j: nat)
    requires k < |PublishedUses(ends)|
    ensures j < |ends| && ends[j].Published? && ends[j].use == PublishedUses(ends)[k]
    decreases |ends|
  {
    if k < |PublishedUses(ends[..|ends| - 1])| {
      j := PublishedAmongEnds(ends[..|ends| - 1], k);
    } else {
      j := |ends| - 1;
    }
  }

  /** Rising ends publish no use twice, and none that was aborted. */
  lemma {:induction false} PublishedOnce(ends: seq<End>)
    requires Rising(EndUses(ends))
    ensures Once(PublishedUses(ends))
    decreases |ends|
  {
    if |ends| > 0 {
      var front, all := ends[..|ends| - 1], PublishedUses(ends);
      forall i, j | 0 <= i < j < |front| && EndUses(front)[i].block == EndUses(front)[j].block
        ensures EndUses(front)[i].epoch < EndUses(front)[j].epoch
      {
        assert EndUses(ends)[i] == EndUses(front)[i] && EndUses(ends)[j] == EndUses(front)[j];
      }
      PublishedOnce(front);
      forall i, j | 0 <= i < j < |all| ensures all[i] != all[j] {
        if j == |PublishedUses(front)| {
          var i' := PublishedAmongEnds(front, i);
          assert EndUses(ends)[i'] == ends[i'].use && EndUses(ends)[|ends| - 1] == ends[|ends| - 1].use;
        }
      }
    }
  }

  lemma {:induction false} AbortedApart(ends: seq<End>, i: nat, k: nat)
    requires Rising(EndUses(ends)) && i < |ends| && ends[i].Aborted? && k < |PublishedUses(ends)|
    ensures PublishedUses(ends)[k] != ends[i].use
  {
    var j := PublishedAmongEnds(ends, k);
    assert EndUses(ends)[i] == ends[i].use && EndUses(ends)[j] == ends[j].use;
  }

  // -------------------------------------------------------------------- commit calls

  /** Between the entry checks of a commit call and its answer. */
  predicate Committing(k: Conn) {
    match k.pc
    case CheckGate(op) => op.Commit?
    case CheckFailure(op) => op.Commit?
    case Describe(_, _, _) => true
    case StoreCommitted => true
    case LoadTail(w) => w.Ready?
    case LoadCell(w, _) => w.Ready?
    case InstallCell(w, _, _) => w.Ready?
    case HelpTail(w, _) => w.Ready?
    case AdvanceTail(w, _) => w.Ready?
    case _ => false
  }

  predicate Failing(k: Conn) { k.pc.RaiseFailure? || k.pc.RequestRetire? }

  predicate CommitOk(k: Conn, call: Call, times: nat) {
    if Failing(k) then k.result != Ok && times == 0
    else
      && Committing(k) && call.message == k.offer && call.use == UseOf(k)
      && times == if k.pc.AdvanceTail? then 1 else 0
  }

  predicate CallOk(s: Pool, h: History, m: nat)
    requires m < |h.calls|
  {
    var call := h.calls[m];
    && call.conn < |s.conns|
    && call.message.epoch == call.use.epoch
    && match call.answer
       case Open => call.conn in h.current && h.current[call.conn] == m
       case Answered(r) => Publications(h.ends, m) == if r == Ok then 1 else 0
  }

  predicate ConnRecorded(s: Pool, h: History, i: nat)
    requires i < |s.conns|
  {
    if i in h.current then
      var m := h.current[i];
      && m < |h.calls| && h.calls[m].conn == i && h.calls[m].answer.Open?
      && CommitOk(s.conns[i], h.calls[m], Publications(h.ends, m))
    else
      !Committing(s.conns[i])
  }

  ghost predicate CallsInv(s: Pool, h: History) {
    && CallsKnown(h.ends, h.calls)
    && (forall i :: i in h.current ==> i < |s.conns|)
    && (forall m :: 0 <= m < |h.calls| ==> CallOk(s, h, m))
    && (forall i :: 0 <= i < |s.conns| ==> ConnRecorded(s, h, i))
  }

  /** A step of a commit call that is not its install either answers it as its
      publications say, or goes on. */
  lemma {:induction false} CommitStep(c: Config, s: Pool, i: nat, call: Call, times: nat)
    requires c.n > 0 && i < |s.conns| && PcOk(c, s.conns[i], s.free, s.ready)
    requires CommitOk(s.conns[i], call, times) && !EventOf(c, s, Step(i)).Enqueued?
    ensures var k' := NextConn(c, s, i);
      if k'.pc.Idle? then times == (if k'.result == Ok then 1 else 0) else CommitOk(k', call, times)
  {
    match s.conns[i].pc
    case Describe(_, _, _) =>
    case StoreCommitted =>
    case _ =>
  }

  /** No step of another call enters the middle of a commit. */
  lemma {:induction false} OtherStep(c: Config, s: Pool, i: nat)
    requires c.n > 0 && i < |s.conns| && PcOk(c, s.conns[i], s.free, s.ready)
    requires !Committing(s.conns[i])
    ensures !Committing(NextConn(c, s, i))
  {
    match s.conns[i].pc
    case Validate =>
    case StoreReserved =>
    case StoreEmpty =>
    case _ =>
  }

  /** The recorded call of a connection may change its state as long as its
      publications are told right. */
  lemma {:induction false} ConnChanges(s: Pool, s': Pool, h: History, h': History, i: nat)
    requires CallsInv(s, h) && i < |s.conns| && |s'.conns| == |s.conns|
    requires s'.conns == s.conns[i := s'.conns[i]] && ConnRecorded(s', h, i)
    requires h' == h.(reserved := h'.reserved)
    ensures CallsInv(s', h')
  {
    forall m | 0 <= m < |h.calls| ensures CallOk(s', h', m) { assert CallOk(s, h, m); }
    forall j | 0 <= j < |s'.conns| ensures ConnRecorded(s', h', j) {
      assert ConnRecorded(s, h, j) && ConnRecorded(s', h, i);
    }
  }

  lemma {:induction false} AnswerKeeps(s: Pool, s': Pool, h: History, i: nat)
    requires CallsInv(s, h) && i in h.current && i < |s.conns| && |s'.conns| == |s.conns|
    requires s'.conns == s.conns[i := s'.conns[i]] && s'.conns[i].pc.Idle?
    requires h.current[i] < |h.calls|
    requires Publications(h.ends, h.current[i]) == if s'.conns[i].result == Ok then 1 else 0
    ensures CallsInv(s', Answering(h, i, s'.conns[i].result))
  {
    var h' := Answering(h, i, s'.conns[i].result);
    assert ConnRecorded(s, h, i);
    forall m | 0 <= m < |h'.calls| ensures CallOk(s', h', m) { assert CallOk(s, h, m); }
    forall j | 0 <= j < |s'.conns| ensures ConnRecorded(s', h', j) { assert ConnRecorded(s, h, j); }
  }

  lemma {:induction false} AcceptKeeps(s: Pool, s': Pool, h: History, i: nat, op: Op)
    requires CallsInv(s, h) && i < |s.conns| && |s'.conns| == |s.conns| && op.Commit?
    requires s'.conns == s.conns[i := s'.conns[i]] && i !in h.current
    requires var call := Call(i, CommitMessage(s, i, op), UseOf(s.conns[i]), Open);
      call.message.epoch == call.use.epoch && CommitOk(s'.conns[i], call, 0)
    ensures CallsInv(s', Accept(s, h, i, op))
  {
    var h' := Accept(s, h, i, op);
    NoPublications(h.ends, h.calls, |h.calls|);
    forall m | 0 <= m < |h'.calls| ensures CallOk(s', h', m) {
      if m < |h.calls| { assert CallOk(s, h, m); }
    }
    forall j | 0 <= j < |s'.conns| ensures ConnRecorded(s', h', j) { assert ConnRecorded(s, h, j); }
  }

  /** A publishing install is counted for its own call and for no other. */
  lemma {:induction false} PublishKeeps(s: Pool, s': Pool, h: History, i: nat)
    requires CallsInv(s, h) && i < |s.conns| && |s'.conns| == |s.conns| && i in h.current
    requires s'.conns == s.conns[i := s'.conns[i]]
    requires var k := s.conns[i]; k.pc.InstallCell? && s'.conns[i] == Goto(k, AdvanceTail(Ready, k.pc.t))
    ensures CallsInv(s', h.(ends := h.ends + [Published(UseOf(s.conns[i]), h.current[i])]))
  {
    var e := Published(UseOf(s.conns[i]), h.current[i]);
    var h' := h.(ends := h.ends + [e]);
    assert ConnRecorded(s, h, i);
    assert CallOk(s, h, h.current[i]);
    forall m | 0 <= m < |h'.calls| ensures CallOk(s', h', m) {
      assert CallOk(s, h, m);
      PublicationsAppend(h.ends, e, m);
    }
    forall j | 0 <= j < |s'.conns| ensures ConnRecorded(s', h', j) {
      assert ConnRecorded(s, h, j);
      if j in h.current { PublicationsAppend(h.ends, e, h.current[j]); }
    }
  }

  lemma {:induction false} AbortKeeps(s: Pool, s': Pool, h: History, i: nat)
    requires CallsInv(s, h) && i < |s.conns| && |s'.conns| == |s.conns| && i !in h.current
    requires s'.conns == s.conns[i := s'.conns[i]] && !Committing(s'.conns[i])
    ensures CallsInv(s', h.(ends := h.ends + [Aborted(UseOf(s.conns[i]))]))
  {
    var e := Aborted(UseOf(s.conns[i]));
    var h' := h.(ends := h.ends + [e]);
    forall m | 0 <= m < |h'.calls| ensures CallOk(s', h', m) {
      assert CallOk(s, h, m);
      PublicationsAppend(h.ends, e, m);
    }
    forall j | 0 <= j < |s'.conns| ensures ConnRecorded(s', h', j) {
      assert ConnRecorded(s, h, j);
      if j in h.current { PublicationsAppend(h.ends, e, h.current[j]); }
    }
  }

  lemma {:induction false} EndTold(c: Config, s: Pool, s': Pool, h: History, i: nat)
    requires CallsInv(s, h) && i < |s.conns| && |s'.conns| == |s.conns|
    requires var k := s.conns[i];
      k.pc.InstallCell? && s'.conns == s.conns[i := Goto(k, AdvanceTail(k.pc.w, k.pc.t))]
    ensures CallsInv(s', h.(ends := h.ends + EndBy(h, i, s.conns[i], s.conns[i].pc.w)))
  {
    assert ConnRecorded(s, h, i);
    match s.conns[i].pc.w
    case Ready => PublishKeeps(s, s', h, i);
    case Free =>
      if s.conns[i].role.Producer? {
        AbortKeeps(s, s', h, i);
      } else {
        assert h.ends + [] == h.ends;
        ConnChanges(s, s', h, h, i);
      }
  }

  lemma {:induction false} StepTold(c: Config, s: Pool, s': Pool, h: History, i: nat, ev: Event)
    requires c.n > 0 && CallsInv(s, h) && i < |s.conns| && PcOk(c, s.conns[i], s.free, s.ready)
    requires ev == EventOf(c, s, Step(i)) && !ev.Enqueued?
    requires s'.conns == s.conns[i := NextConn(c, s, i)]
    ensures CallsInv(s', WatchStep(h, i, s.conns[i], s'.conns[i], ev))
  {
    var h' := WatchStep(h, i, s.conns[i], s'.conns[i], ev);
    assert ConnRecorded(s, h, i);
    if i in h.current {
      CommitStep(c, s, i, h.calls[h.current[i]], Publications(h.ends, h.current[i]));
      if s'.conns[i].pc.Idle? { AnswerKeeps(s, s', h, i); } else { ConnChanges(s, s', h, h', i); }
    } else {
      OtherStep(c, s, i);
      ConnChanges(s, s', h, h', i);
    }
  }

  lemma {:induction false} StepKeepsCalls(c: Config, s: Pool, h: History, i: nat)
    requires Inv(c, s) && CallsInv(s, h) && Enabled(c, s, Step(i))
    ensures CallsInv(Advance(c, s, i), Watch(c, s, h, Step(i)))
  {
    ConnAfter(c, s, i);
    assert ConnOk(c, s, i);
    if EventOf(c, s, Step(i)).Enqueued? {
      EndTold(c, s, Advance(c, s, i), h, i);
    } else {
      StepTold(c, s, Advance(c, s, i), h, i, EventOf(c, s, Step(i)));
    }
  }

  lemma {:induction false} AcceptTold(c: Config, s: Pool, h: History, i: nat, op: Op)
    requires Inv(c, s) && CallsInv(s, h) && Enabled(c, s, Invoke(i, op)) && Accepts(c, s, Invoke(i, op))
    ensures CallsInv(Apply(c, s, Invoke(i, op)), Accept(s, h, i, op))
  {
    assert ConnOk(c, s, i) && ConnRecorded(s, h, i);
    AcceptKeeps(s, Apply(c, s, Invoke(i, op)), h, i, op);
  }

  lemma {:induction false} SameConns(s: Pool, s': Pool, h: History)
    requires CallsInv(s, h) && s'.conns == s.conns
    ensures CallsInv(s', h)
  {
    forall m | 0 <= m < |h.calls| ensures CallOk(s', h, m) { assert CallOk(s, h, m); }
    forall j | 0 <= j < |s'.conns| ensures ConnRecorded(s', h, j) { assert ConnRecorded(s, h, j); }
  }

  lemma {:induction false} CallerKeepsCalls(c: Config, s: Pool, h: History, a: Action)
    requires Inv(c, s) && CallsInv(s, h) && Enabled(c, s, a) && !a.Step?
    ensures CallsInv(Apply(c, s, a), Watch(c, s, h, a))
  {
    var s' := Apply(c, s, a);
    match a
    case Invoke(i, op) =>
      if Accepts(c, s, a) {
        AcceptTold(c, s, h, i, op);
      } else {
        assert ConnRecorded(s, h, i);
        ConnChanges(s, s', h, h, i);
      }
    case EnableDrain(i) =>
      assert ConnRecorded(s, h, i);
      ConnChanges(s, s', h, h, i);
    case Abandon(i) =>
      assert ConnRecorded(s, h, i);
      ConnChanges(s, s', h, h, i);
    case WriteByte(_, _, _) => SameConns(s, s', h);
    case RaiseBy(_) => SameConns(s, s', h);
    case MoveGate(_) => SameConns(s, s', h);
  }

  // ------------------------------------------------------------------- block epochs

  /** A producer between its fresh epoch and the install that ends the use. */
  predicate Writing(k: Conn) { k.role.Producer? && Holds(k) && !k.poisoned && !k.pc.Validate? }

  ghost predicate Spends(s: Pool, h: History, i: nat)
    requires i < |s.conns|
  {
    var k := s.conns[i];
    Writing(k) ==>
      && k.block < |s.desc| && s.desc[k.block].epoch == k.epoch
      && UseOf(k) in h.reserved
      && forall e :: 0 <= e < |h.ends| && h.ends[e].use.block == k.block ==> h.ends[e].use.epoch < k.epoch
  }

  predicate Past(s: Pool, u: Use) { u.block < |s.desc| && u.epoch <= s.desc[u.block].epoch }

  ghost predicate UsesInv(s: Pool, h: History) {
    && Rising(h.reserved) && Rising(EndUses(h.ends))
    && (forall u :: u in h.reserved ==> Past(s, u))
    && (forall e :: 0 <= e < |h.ends| ==> h.ends[e].use in h.reserved)
    && (forall i :: 0 <= i < |s.conns| ==> Spends(s, h, i))
  }

  /** The step that gives a block its fresh epoch. */
  predicate Renews(c: Config, s: Pool, a: Action)
    requires c.n > 0
  {
    a.Step? && a.i < |s.conns| && s.conns[a.i].pc.Validate? && NextConn(c, s, a.i).pc.StoreReserved?
  }

  lemma {:induction false} OwnedEpoch(c: Config, k: Conn, d: Desc, bytes: seq<Byte>)
    requires OwnedPc(k.pc)
    ensures var (k', d') := AtOwned(c, k, d, bytes);
      && d'.epoch == d.epoch + (if k.pc.Validate? && k'.pc.StoreReserved? then 1 else 0)
      && (k.pc.Validate? && k'.pc.StoreReserved? ==>
            k.role.Producer? && k'.block == k.block && k'.epoch == d.epoch + 1)
  {
  }

  lemma {:induction false} StepEpochs(c: Config, s: Pool, i: nat, b: nat)
    requires Inv(c, s) && i < |s.conns| && b < c.n
    ensures |Advance(c, s, i).desc| == c.n
    ensures Advance(c, s, i).desc[b].epoch
         == s.desc[b].epoch + if Renews(c, s, Step(i)) && b == s.conns[i].block then 1 else 0
  {
    assert ConnOk(c, s, i);
    var k := s.conns[i];
    if OwnedPc(k.pc) {
      OwnedEpoch(c, k, s.desc[k.block], s.payload[k.block]);
    } else if k.pc.ClaimHead? {
      if Claims(c, s, i) { ClaimEffect(c, s, i); }
    } else if k.pc.InstallCell? {
      if Installs(c, s, i) { InstallEffect(c, s, i); }
    }
  }

  /** A block's epoch moves only when the producer holding the block gives it a fresh
      one, and then by exactly one. */
  lemma {:induction false} ActionEpochs(c: Config, s: Pool, a: Action, b: nat)
    requires Inv(c, s) && Enabled(c, s, a) && b < c.n
    ensures |Apply(c, s, a).desc| == c.n
    ensures Apply(c, s, a).desc[b].epoch
         == s.desc[b].epoch + if Renews(c, s, a) && b == s.conns[a.i].block then 1 else 0
  {
    if a.Step? { StepEpochs(c, s, a.i, b); }
  }

  lemma {:induction false} WritingNext(c: Config, s: Pool, i: nat)
    requires c.n > 0 && i < |s.conns| && PcOk(c, s.conns[i], s.free, s.ready)
    requires !Renews(c, s, Step(i)) && Writing(NextConn(c, s, i))
    ensures Writing(s.conns[i]) && UseOf(NextConn(c, s, i)) == UseOf(s.conns[i])
  {
    match s.conns[i].pc
    case Validate =>
    case StoreReserved =>
    case Describe(_, _, _) =>
    case StoreCommitted =>
    case StoreEmpty =>
    case _ =>
  }

  lemma {:induction false} SoleHolder(c: Config, s: Pool, i: nat, j: nat)
    requires Inv(c, s) && i < |s.conns| && j < |s.conns| && Holds(s.conns[i]) && Holds(s.conns[j])
    requires s.conns[i].block == s.conns[j].block
    ensures i == j
  {
    assert ConnOk(c, s, i) && ConnOk(c, s, j);
  }

  /** Actions that neither reserve nor end a use. */
  lemma {:induction false} UsesKept(c: Config, s: Pool, s': Pool, h: History, h': History)
    requires Inv(c, s) && UsesInv(s, h) && h'.reserved == h.reserved && h'.ends == h.ends
    requires |s'.desc| == c.n && forall b :: 0 <= b < c.n ==> s'.desc[b].epoch == s.desc[b].epoch
    requires |s'.conns| == |s.conns|
    requires forall j :: 0 <= j < |s.conns| && Writing(s'.conns[j]) ==>
      Writing(s.conns[j]) && UseOf(s'.conns[j]) == UseOf(s.conns[j])
    ensures UsesInv(s', h')
  {
    forall u | u in h'.reserved ensures Past(s', u) { assert Past(s, u); }
    forall j | 0 <= j < |s'.conns| ensures Spends(s', h', j) { assert Spends(s, h, j); }
  }

  lemma {:induction false} ReserveSpends(c: Config, s: Pool, s': Pool, h: History, i: nat, u: Use, j: nat)
    requires Inv(c, s) && UsesInv(s, h) && i < |s.conns| && Holds(s.conns[i])
    requires u.block == s.conns[i].block < c.n == |s'.desc|
    requires u.epoch == s'.desc[u.block].epoch == s.desc[u.block].epoch + 1
    requires forall b :: 0 <= b < c.n && b != u.block ==> s'.desc[b].epoch == s.desc[b].epoch
    requires |s'.conns| == |s.conns| && s'.conns == s.conns[i := s'.conns[i]] && UseOf(s'.conns[i]) == u
    requires j < |s.conns|
    ensures Spends(s', h.(reserved := h.reserved + [u]), j)
  {
    if j == i {
      forall e | 0 <= e < |h.ends| && h.ends[e].use.block == u.block ensures h.ends[e].use.epoch < u.epoch {
        assert Past(s, h.ends[e].use);
      }
    } else {
      assert Spends(s, h, j);
      if Writing(s.conns[j]) && s.conns[j].block == u.block { SoleHolder(c, s, i, j); }
    }
  }

  /** A fresh epoch is above every earlier one of its block. */
  lemma {:induction false} ReserveKeeps(c: Config, s: Pool, s': Pool, h: History, i: nat, u: Use)
    requires Inv(c, s) && UsesInv(s, h) && i < |s.conns| && Holds(s.conns[i])
    requires u.block == s.conns[i].block < c.n == |s'.desc|
    requires u.epoch == s'.desc[u.block].epoch == s.desc[u.block].epoch + 1
    requires forall b :: 0 <= b < c.n && b != u.block ==> s'.desc[b].epoch == s.desc[b].epoch
    requires |s'.conns| == |s.conns| && s'.conns == s.conns[i := s'.conns[i]] && UseOf(s'.conns[i]) == u
    ensures UsesInv(s', h.(reserved := h.reserved + [u]))
  {
    var h' := h.(reserved := h.reserved + [u]);
    forall j | 0 <= j < |h.reserved| && h.reserved[j].block == u.block ensures h.reserved[j].epoch < u.epoch {
      assert Past(s, h.reserved[j]);
    }
    RisingAppend(h.reserved, u);
    forall v | v in h'.reserved ensures Past(s', v) {
      if v in h.reserved { assert Past(s, v); }
    }
    forall j | 0 <= j < |s'.conns| ensures Spends(s', h', j) { ReserveSpends(c, s, s', h, i, u, j); }
  }

  /** An ended use is above every earlier end of its block. */
  lemma {:induction false} EndKeeps(c: Config, s: Pool, s': Pool, h: History, i: nat, e: End)
    requires Inv(c, s) && UsesInv(s, h) && i < |s.conns| && Writing(s.conns[i]) && e.use == UseOf(s.conns[i])
    requires s'.desc == s.desc && |s'.conns| == |s.conns| && s'.conns == s.conns[i := s'.conns[i]]
    requires !Writing(s'.conns[i])
    ensures UsesInv(s', h.(ends := h.ends + [e]))
  {
    var h' := h.(ends := h.ends + [e]);
    assert Spends(s, h, i);
    assert EndUses(h'.ends) == EndUses(h.ends) + [e.use];
    RisingAppend(EndUses(h.ends), e.use);
    forall u | u in h'.reserved ensures Past(s', u) { assert Past(s, u); }
    forall j | 0 <= j < |s'.conns| ensures Spends(s', h', j) {
      assert Spends(s, h, j);
      if j != i && Writing(s.conns[j]) && s.conns[j].block == e.use.block { SoleHolder(c, s, i, j); }
    }
  }

  lemma {:induction false} RenewTold(c: Config, s: Pool, h: History, i: nat)
    requires Inv(c, s) && UsesInv(s, h) && i < |s.conns| && Renews(c, s, Step(i))
    ensures UsesInv(Advance(c, s, i), Watch(c, s, h, Step(i)))
  {
    var s', k := Advance(c, s, i), s.conns[i];
    assert ConnOk(c, s, i);
    ConnAfter(c, s, i);
    OwnedEpoch(c, k, s.desc[k.block], s.payload[k.block]);
    forall b | 0 <= b < c.n
      ensures s'.desc[b].epoch == s.desc[b].epoch + if b == k.block then 1 else 0
    {
      StepEpochs(c, s, i, b);
    }
    ReserveKeeps(c, s, s', h, i, UseOf(s'.conns[i]));
  }

  lemma {:induction false} WritingInstall(c: Config, s: Pool, h: History, i: nat)
    requires Inv(c, s) && CallsInv(s, h) && Installs(c, s, i) && s.conns[i].role.Producer?
    ensures Writing(s.conns[i])
    ensures var ends := EndBy(h, i, s.conns[i], s.conns[i].pc.w);
      |ends| == 1 && ends[0].use == UseOf(s.conns[i])
  {
    assert ConnOk(c, s, i) && ConnRecorded(s, h, i);
  }

  /** An install by a producer ends a use; it belongs to the call on record. */
  lemma {:induction false} EndUse(c: Config, s: Pool, s': Pool, h: History, i: nat)
    requires CallsInv(s, h) && UsesInv(s, h) && Installs(c, s, i) && s.conns[i].role.Producer?
    requires InstallDelta(c, s, s', i)
    ensures UsesInv(s', h.(ends := h.ends + EndBy(h, i, s.conns[i], s.conns[i].pc.w)))
  {
    var k := s.conns[i];
    WritingInstall(c, s, h, i);
    EndKeeps(c, s, s', h, i, EndBy(h, i, k, k.pc.w)[0]);
  }

  /** What a step that renews nothing leaves of the epochs and the writers. */
  lemma {:induction false} SameEpochs(c: Config, s: Pool, i: nat)
    requires Inv(c, s) && i < |s.conns| && !Renews(c, s, Step(i))
    ensures var s' := Advance(c, s, i);
      && |s'.desc| == c.n && (forall b :: 0 <= b < c.n ==> s'.desc[b].epoch == s.desc[b].epoch)
      && |s'.conns| == |s.conns|
      && forall j :: 0 <= j < |s.conns| && Writing(s'.conns[j]) ==>
           Writing(s.conns[j]) && UseOf(s'.conns[j]) == UseOf(s.conns[j])
  {
    var s' := Advance(c, s, i);
    assert ConnOk(c, s, i);
    ConnAfter(c, s, i);
    forall b | 0 <= b < c.n ensures s'.desc[b].epoch == s.desc[b].epoch { StepEpochs(c, s, i, b); }
    StepEpochs(c, s, i, 0);
    if Writing(s'.conns[i]) { WritingNext(c, s, i); }
  }

  lemma {:induction false} WatchesNoUse(h: History, i: nat, k: Conn, k': Conn, ev: Event)
    requires !(k.pc.Validate? && k'.pc.StoreReserved?)
    requires ev.Enqueued? ==> k.role.Consumer? && ev.w.Free?
    ensures WatchStep(h, i, k, k', ev).reserved == h.reserved && WatchStep(h, i, k, k', ev).ends == h.ends
  {
    assert h.ends + [] == h.ends;
  }

  lemma {:induction false} SameUses(c: Config, s: Pool, h: History, i: nat)
    requires Inv(c, s) && UsesInv(s, h) && Enabled(c, s, Step(i)) && !Renews(c, s, Step(i))
    requires EventOf(c, s, Step(i)).Enqueued? ==> s.conns[i].role.Consumer?
    ensures UsesInv(Advance(c, s, i), Watch(c, s, h, Step(i)))
  {
    var s' := Advance(c, s, i);
    assert ConnOk(c, s, i);
    ConnAfter(c, s, i);
    SameEpochs(c, s, i);
    WatchesNoUse(h, i, s.conns[i], s'.conns[i], EventOf(c, s, Step(i)));
    UsesKept(c, s, s', h, Watch(c, s, h, Step(i)));
  }

  lemma {:induction false} StepKeepsUses(c: Config, s: Pool, h: History, i: nat)
    requires Inv(c, s) && CallsInv(s, h) && UsesInv(s, h) && Enabled(c, s, Step(i))
    ensures UsesInv(Advance(c, s, i), Watch(c, s, h, Step(i)))
  {
    if Renews(c, s, Step(i)) {
      RenewTold(c, s, h, i);
    } else if EventOf(c, s, Step(i)).Enqueued? && s.conns[i].role.Producer? {
      InstallEffect(c, s, i);
      EndUse(c, s, Advance(c, s, i), h, i);
    } else {
      SameUses(c, s, h, i);
    }
  }

  lemma {:induction false} CallerWriting(c: Config, k: Conn, op: Op, bytes: seq<Byte>)
    requires k.pc.Idle? && Writing(AtInvoke(c, k, op, bytes))
    ensures Writing(k) && UseOf(AtInvoke(c, k, op, bytes)) == UseOf(k)
  {
  }

  lemma {:induction false} CallerKeepsUses(c: Config, s: Pool, h: History, a: Action)
    requires Inv(c, s) && UsesInv(s, h) && Enabled(c, s, a) && !a.Step?
    ensures UsesInv(Apply(c, s, a), Watch(c, s, h, a))
  {
    if a.Invoke? && Writing(Apply(c, s, a).conns[a.i]) {
      CallerWriting(c, s.conns[a.i], a.op, HeldBytes(s, s.conns[a.i]));
    }
    UsesKept(c, s, Apply(c, s, a), h, Watch(c, s, h, a));
  }

  // ------------------------------------------------------------ the publication record

  predicate SameUse(c: Config, s: Pool, uses: seq<Use>, k: nat)
    requires k < |uses|
  {
    && k < |s.published| && c.n + k < |s.ready.log|
    && s.published[k].epoch == uses[k].epoch && s.ready.log[c.n + k] == uses[k].block
  }

  /** The publication log is the messages of the publishing calls in install order,
      each under the use its call had. */
  ghost predicate RecordInv(c: Config, s: Pool, h: History) {
    && CallsKnown(h.ends, h.calls)
    && s.published == Messages(h.ends, h.calls)
    && |PublishedUses(h.ends)| == |s.published|
    && forall k :: 0 <= k < |PublishedUses(h.ends)| ==> SameUse(c, s, PublishedUses(h.ends), k)
  }

  lemma {:induction false} RecordKept(c: Config, s: Pool, s': Pool, h: History, h': History)
    requires RecordInv(c, s, h) && s'.published == s.published && s'.ready.log == s.ready.log
    requires h'.ends == h.ends && |h.calls| <= |h'.calls|
    requires forall m :: 0 <= m < |h.calls| ==> h'.calls[m].message == h.calls[m].message
    ensures RecordInv(c, s', h')
  {
    MessagesFrame(h.ends, h.calls, h'.calls);
    forall k | 0 <= k < |PublishedUses(h'.ends)| ensures SameUse(c, s', PublishedUses(h'.ends), k) {
      assert SameUse(c, s, PublishedUses(h.ends), k);
    }
  }

  lemma {:induction false} RecordAborted(c: Config, s: Pool, s': Pool, h: History, e: End)
    requires RecordInv(c, s, h) && s'.published == s.published && s'.ready.log == s.ready.log && e.Aborted?
    ensures RecordInv(c, s', h.(ends := h.ends + [e]))
  {
    MessagesAppend(h.ends, e, h.calls);
    var uses := PublishedUses(h.ends + [e]);
    assert uses == PublishedUses(h.ends);
    forall k | 0 <= k < |uses| ensures SameUse(c, s', uses, k) {
      assert SameUse(c, s, PublishedUses(h.ends), k);
    }
  }

  lemma {:induction false} RecordPublished(c: Config, s: Pool, s': Pool, h: History, e: End)
    requires RecordInv(c, s, h) && |s.ready.log| == c.n + |s.published|
    requires e.Published? && e.call < |h.calls| && h.calls[e.call].message.epoch == e.use.epoch
    requires s'.published == s.published + [h.calls[e.call].message]
    requires s'.ready.log == s.ready.log + [e.use.block]
    ensures RecordInv(c, s', h.(ends := h.ends + [e]))
  {
    MessagesAppend(h.ends, e, h.calls);
    var before, uses := PublishedUses(h.ends), PublishedUses(h.ends + [e]);
    assert uses == before + [e.use];
    forall k | 0 <= k < |uses| ensures SameUse(c, s', uses, k) {
      if k < |before| { assert SameUse(c, s, before, k); }
    }
  }

  lemma {:induction false} EndRecorded(c: Config, s: Pool, s': Pool, h: History, i: nat)
    requires Shape(c, s) && CallsInv(s, h) && RecordInv(c, s, h) && i < |s.conns| && s.conns[i].pc.InstallCell?
    requires var k := s.conns[i];
      match k.pc.w
      case Ready => s'.ready.log == s.ready.log + [k.block] && s'.published == s.published + [k.offer]
      case Free => s'.ready.log == s.ready.log && s'.published == s.published
    ensures RecordInv(c, s', h.(ends := h.ends + EndBy(h, i, s.conns[i], s.conns[i].pc.w)))
  {
    var k := s.conns[i];
    assert ConnRecorded(s, h, i);
    match k.pc.w
    case Ready =>
      assert CallOk(s, h, h.current[i]);
      RecordPublished(c, s, s', h, Published(UseOf(k), h.current[i]));
    case Free =>
      if k.role.Producer? {
        RecordAborted(c, s, s', h, Aborted(UseOf(k)));
      } else {
        assert h.ends + [] == h.ends;
        RecordKept(c, s, s', h, h);
      }
  }

  lemma {:induction false} InstallRecorded(c: Config, s: Pool, h: History, i: nat)
    requires Inv(c, s) && CallsInv(s, h) && RecordInv(c, s, h) && Installs(c, s, i)
    ensures RecordInv(c, Advance(c, s, i), Watch(c, s, h, Step(i)))
  {
    InstallEffect(c, s, i);
    PublishesOffer(c, s, Step(i));
    EndRecorded(c, s, Advance(c, s, i), h, i);
  }

  lemma {:induction false} QuietQueues(c: Config, s: Pool, i: nat)
    requires Inv(c, s) && i < |s.conns| && !EventOf(c, s, Step(i)).Enqueued?
    ensures Advance(c, s, i).published == s.published && Advance(c, s, i).ready.log == s.ready.log
  {
    match s.conns[i].pc
    case ClaimHead(_, _) => if Claims(c, s, i) { ClaimEffect(c, s, i); }
    case InstallCell(_, _, _) =>
    case _ => PlainStep(c, s, i);
  }

  lemma {:induction false} ActionKeepsRecord(c: Config, s: Pool, h: History, a: Action)
    requires Inv(c, s) && CallsInv(s, h) && RecordInv(c, s, h) && Enabled(c, s, a)
    ensures RecordInv(c, Apply(c, s, a), Watch(c, s, h, a))
  {
    if a.Step? {
      if EventOf(c, s, a).Enqueued? {
        InstallRecorded(c, s, h, a.i);
      } else {
        QuietQueues(c, s, a.i);
        RecordKept(c, s, Apply(c, s, a), h, Watch(c, s, h, a));
      }
    } else {
      PlainCaller(c, s, a);
      RecordKept(c, s, Apply(c, s, a), h, Watch(c, s, h, a));
    }
  }

  // -------------------------------------------------------------------------- all runs

  ghost predicate HistoryInv(c: Config, s: Pool, h: History) {
    CallsInv(s, h) && UsesInv(s, h) && RecordInv(c, s, h)
  }

  lemma {:induction false} ActionKeepsHistory(c: Config, s: Pool, h: History, a: Action)
    requires Inv(c, s) && HistoryInv(c, s, h) && Enabled(c, s, a)
    ensures HistoryInv(c, Apply(c, s, a), Watch(c, s, h, a))
  {
    ActionKeepsRecord(c, s, h, a);
    if a.Step? {
      StepKeepsCalls(c, s, h, a.i);
      StepKeepsUses(c, s, h, a.i);
    } else {
      CallerKeepsCalls(c, s, h, a);
      CallerKeepsUses(c, s, h, a);
    }
  }

  lemma {:induction false} RunKeepsHistory(c: Config, s: Pool, h: History, acts: seq<Action>)
    requires Inv(c, s) && HistoryInv(c, s, h) && Run(c, s, acts)
    ensures Inv(c, After(c, s, acts)) && HistoryInv(c, After(c, s, acts), Watched(c, s, h, acts))
    decreases |acts|
  {
    if |acts| > 0 {
      ActionKeeps(c, s, acts[0]);
      ActionKeepsHistory(c, s, h, acts[0]);
      RunKeepsHistory(c, Apply(c, s, acts[0]), Watch(c, s, h, acts[0]), acts[1..]);
    }
  }

  /** The end of a run from construction, and what was watched along it. */
  ghost predicate Observed(c: Config, roles: seq<Role>, acts: seq<Action>, s: Pool, h: History)
    requires c.n > 0
  {
    && Run(c, Initial(c, roles), acts)
    && s == After(c, Initial(c, roles), acts) && h == Watched(c, Initial(c, roles), NOTHING, acts)
  }

  lemma {:induction false} ObservedInv(c: Config, roles: seq<Role>, acts: seq<Action>, s: Pool, h: History)
    requires Admitted(c) && Observed(c, roles, acts, s, h)
    ensures Inv(c, s) && HistoryInv(c, s, h)
  {
    InitialHolds(c, roles);
    RunKeepsHistory(c, Initial(c, roles), NOTHING, acts);
  }

  /** Every accepted commit call publishes at most once; one that answered Ok
      published exactly once, one that answered anything else never. */
  lemma {:induction false} CommitPublishesOnce(c: Config, roles: seq<Role>, acts: seq<Action>,
                                               s: Pool, h: History, m: nat)
    requires Admitted(c) && Observed(c, roles, acts, s, h) && m < |h.calls|
    ensures Publications(h.ends, m) <= 1
    ensures h.calls[m].answer == Answered(Ok) ==> Publications(h.ends, m) == 1
    ensures h.calls[m].answer.Answered? && h.calls[m].answer.status != Ok ==> Publications(h.ends, m) == 0
  {
    ObservedInv(c, roles, acts, s, h);
    assert CallOk(s, h, m);
    if h.calls[m].answer.Open? { assert ConnRecorded(s, h, h.calls[m].conn); }
  }

  /** Nothing else is ever published: the publication log is the messages of those
      calls, in the order of their installs in QR. */
  lemma {:induction false} PublishedIsCommits(c: Config, roles: seq<Role>, acts: seq<Action>,
                                              s: Pool, h: History)
    requires Admitted(c) && Observed(c, roles, acts, s, h)
    ensures CallsKnown(h.ends, h.calls) && s.published == Messages(h.ends, h.calls)
  {
    ObservedInv(c, roles, acts, s, h);
  }

  /** The block and epoch of a publication. */
  function PublishedUse(c: Config, s: Pool, k: nat): Use
    requires k < |s.published| && c.n + k < |s.ready.log|
  {
    Use(s.ready.log[c.n + k], s.published[k].epoch)
  }

  /** No block is published twice under one epoch. */
  lemma {:induction false} EpochsNeverRepeat(c: Config, roles: seq<Role>, acts: seq<Action>,
                                             s: Pool, h: History, j: nat, k: nat)
    requires Admitted(c) && Observed(c, roles, acts, s, h) && j < k < |s.published|
    ensures |s.ready.log| == c.n + |s.published|
    ensures PublishedUse(c, s, j) != PublishedUse(c, s, k)
  {
    ObservedInv(c, roles, acts, s, h);
    PublishedOnce(h.ends);
    assert SameUse(c, s, PublishedUses(h.ends), j) && SameUse(c, s, PublishedUses(h.ends), k);
  }

  /** A use that an abort ended is not the use of any publication, before or after. */
  lemma {:induction false} AbortedNeverPublished(c: Config, roles: seq<Role>, acts: seq<Action>,
                                                 s: Pool, h: History, i: nat, k: nat)
    requires Admitted(c) && Observed(c, roles, acts, s, h)
    requires i < |h.ends| && h.ends[i].Aborted? && k < |s.published|
    ensures |s.ready.log| == c.n + |s.published|
    ensures PublishedUse(c, s, k) != h.ends[i].use
  {
    ObservedInv(c, roles, acts, s, h);
    AbortedApart(h.ends, i, k);
    assert SameUse(c, s, PublishedUses(h.ends), k);
  }

  /** Every reservation gets an epoch above all earlier ones of its block, and only
      reserved uses ever end, each at most once. */
  lemma {:induction false} ReservationsRise(c: Config, roles: seq<Role>, acts: seq<Action>,
                                            s: Pool, h: History)
    requires Admitted(c) && Observed(c, roles, acts, s, h)
    ensures Rising(h.reserved)
    ensures forall i :: 0 <= i < |h.ends| ==> h.ends[i].use in h.reserved
    ensures Once(EndUses(h.ends))
  {
    ObservedInv(c, roles, acts, s, h);
  }

  // ------------------------------------------------------------------ nothing falls

  predicate Later(s: Pool, s': Pool) {
    && |s.desc| == |s'.desc|
    && Grows(s.free, s'.free) && Grows(s.ready, s'.ready)
    && s.published <= s'.published
    && forall b :: 0 <= b < |s.desc| ==> s.desc[b].epoch <= s'.desc[b].epoch
  }

  lemma {:induction false} ActionIsLater(c: Config, s: Pool, a: Action)
    requires Inv(c, s) && Enabled(c, s, a)
    ensures Later(s, Apply(c, s, a))
  {
    forall b | 0 <= b < c.n ensures s.desc[b].epoch <= Apply(c, s, a).desc[b].epoch { ActionEpochs(c, s, a, b); }
    ActionEpochs(c, s, a, 0);
    PublishesOffer(c, s, a);
    if a.Step? { NcqCalls.StepGrows(c, s, a.i); } else { PlainCaller(c, s, a); }
  }

  /** Along every run no head, no tail, no log and no block's epoch ever falls. */
  lemma {:induction false} NothingFalls(c: Config, s: Pool, acts: seq<Action>)
    requires Inv(c, s) && Run(c, s, acts)
    ensures Inv(c, After(c, s, acts)) && Later(s, After(c, s, acts))
    decreases |acts|
  {
    if |acts| > 0 {
      ActionIsLater(c, s, acts[0]);
      ActionKeeps(c, s, acts[0]);
      NothingFalls(c, Apply(c, s, acts[0]), acts[1..]);
    }
  }

  /** So a head ticket is claimed once: any later claim of the queue has a higher one. */
  lemma {:induction false} TicketClaimedOnce(c: Config, s: Pool, i: nat, acts: seq<Action>, j: nat)
    requires Claims(c, s, i) && Run(c, Advance(c, s, i), acts)
    requires Claims(c, After(c, Advance(c, s, i), acts), j)
    requires After(c, Advance(c, s, i), acts).conns[j].role == s.conns[i].role
    ensures After(c, Advance(c, s, i), acts).conns[j].pc.h > s.conns[i].pc.h
  {
    ClaimEffect(c, s, i);
    ActionKeeps(c, s, Step(i));
    NothingFalls(c, Advance(c, s, i), acts);
  }

  /** And a tail ticket is installed once. */
  lemma {:induction false} TicketInstalledOnce(c: Config, s: Pool, i: nat, acts: seq<Action>, j: nat)
    requires Installs(c, s, i) && Run(c, Advance(c, s, i), acts)
    requires Installs(c, After(c, Advance(c, s, i), acts), j)
    requires After(c, Advance(c, s, i), acts).conns[j].pc.w == s.conns[i].pc.w
    ensures After(c, Advance(c, s, i), acts).conns[j].pc.t > s.conns[i].pc.t
  {
    InstallAtFrontier(c, s, i);
    InstallAtFrontier(c, After(c, Advance(c, s, i), acts), j);
    InstallEffect(c, s, i);
    ActionKeeps(c, s, Step(i));
    NothingFalls(c, Advance(c, s, i), acts);
  }

  // -------------------------------------------------------- one abort or release call

  /** Blocks connection i returns to QF along a run. */
  ghost function ReturnsBy(c: Config, s: Pool, acts: seq<Action>, i: nat): nat
    requires c.n > 0 && Run(c, s, acts)
    decreases |acts|
  {
    if |acts| == 0 then 0
    else ReturnsBy(c, Apply(c, s, acts[0]), acts[1..], i) + if Returns(c, s, acts[0], i) then 1 else 0
  }

  predicate Returns(c: Config, s: Pool, a: Action, i: nat)
    requires c.n > 0
  {
    a == Step(i) && EventOf(c, s, a).Enqueued? && EventOf(c, s, a).w.Free?
  }

  /** An abort or release call, entered and not yet answered or answered as it should. */
  predicate ReturnCall(k: Conn, times: nat) {
    match k.pc
    case CheckGate(op) => Returning(op) && times == 0
    case CheckFailure(op) => Returning(op) && times == 0
    case StoreEmpty => times == 0
    case LoadTail(w) => w.Free? && times == 0
    case LoadCell(w, _) => w.Free? && times == 0
    case InstallCell(w, _, _) => w.Free? && times == 0
    case HelpTail(w, _) => w.Free? && times == 0
    case AdvanceTail(w, _) => w.Free? && times == 1
    case RaiseFailure(_) => k.result != Ok && times == 0
    case RequestRetire => k.result != Ok && times == 0
    case Idle => times == if k.result == Ok then 1 else 0
    case _ => false
  }

  lemma {:induction false} ReturnStep(c: Config, s: Pool, i: nat, times: nat)
    requires c.n > 0 && i < |s.conns| && PcOk(c, s.conns[i], s.free, s.ready)
    requires ReturnCall(s.conns[i], times) && !s.conns[i].pc.Idle?
    ensures ReturnCall(NextConn(c, s, i), times + if Returns(c, s, Step(i), i) then 1 else 0)
  {
    match s.conns[i].pc
    case StoreEmpty =>
    case _ =>
  }

  lemma {:induction false} ReturnAction(c: Config, s: Pool, a: Action, i: nat, times: nat)
    requires Inv(c, s) && Enabled(c, s, a) && i < |s.conns| && ReturnCall(s.conns[i], times)
    requires !(a.Invoke? && a.i == i)
    ensures i < |Apply(c, s, a).conns|
    ensures ReturnCall(Apply(c, s, a).conns[i], times + if Returns(c, s, a, i) then 1 else 0)
  {
    if a.Step? {
      ConnAfter(c, s, a.i);
      if a.i == i {
        assert ConnOk(c, s, i);
        ReturnStep(c, s, i, times);
      }
    }
  }

  lemma {:induction false} ReturnRun(c: Config, s: Pool, acts: seq<Action>, i: nat, times: nat)
    requires Inv(c, s) && Run(c, s, acts) && i < |s.conns| && ReturnCall(s.conns[i], times)
    requires forall j :: 0 <= j < |acts| ==> !(acts[j].Invoke? && acts[j].i == i)
    ensures i < |After(c, s, acts).conns|
    ensures ReturnCall(After(c, s, acts).conns[i], times + ReturnsBy(c, s, acts, i))
    decreases |acts|
  {
    if |acts| > 0 {
      ReturnAction(c, s, acts[0], i, times);
      ActionKeeps(c, s, acts[0]);
      ReturnRun(c, Apply(c, s, acts[0]), acts[1..], i, times + if Returns(c, s, acts[0], i) then 1 else 0);
    }
  }

  /** An accepted abort or release call returns its block to QF exactly once if it
      answers Ok and never if it answers anything else, whatever runs meanwhile. */
  lemma {:induction false} ReturnsOnce(c: Config, s: Pool, i: nat, op: Op, acts: seq<Action>)
    requires Inv(c, s) && i < |s.conns| && s.conns[i].pc == CheckGate(op) && Returning(op) && Run(c, s, acts)
    requires forall j :: 0 <= j < |acts| ==> !(acts[j].Invoke? && acts[j].i == i)
    ensures ReturnsBy(c, s, acts, i) <= 1
    ensures i < |After(c, s, acts).conns| && (After(c, s, acts).conns[i].pc.Idle? ==>
      (ReturnsBy(c, s, acts, i) == 1 <==> After(c, s, acts).conns[i].result == Ok))
  {
    ReturnRun(c, s, acts, i, 0);
  }
}
