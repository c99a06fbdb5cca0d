/** A published message damaged in the NCQ pool: until the consumer that claims its
    block looks at it the run is the undamaged one, and then that consumer's call
    answers Integrity, retires the generation and is the last to succeed there.  */
module NcqDamage {
  import opened Words
  import opened NcqQueue
  import opened Crc
  import opened Core
  import opened NcqPool
  import opened NcqInvariant
  import opened NcqSafety
  import opened NcqTheorems

  /** The pool with the payload of one block replaced, and whatever was recorded of
      the claims. */
  predicate Twin(s: Pool, z: Pool, b: nat, received: seq<Byte>) {
    b < |s.payload| && z == s.(payload := s.payload[b := received], delivered := z.delivered)
  }

  function Hit(s: Pool, b: nat, received: seq<Byte>): Pool
    requires b < |s.payload|
  {
    s.(payload := s.payload[b := received])
  }

  /** A published block that no consumer has looked at: queued, or claimed and not yet
      validated. */
  predicate Unread(s: Pool, b: nat) {
    && b < |s.place|
    && match s.place[b]
       case InReady(_) => true
       case Held(i) => i < |s.conns| && s.conns[i].role.Consumer? && s.conns[i].pc.Validate?
       case _ => false
  }

  predicate ReadsAt(s: Pool, a: Action, b: nat) {
    a.Step? && a.i < |s.conns| && s.conns[a.i].pc.Validate? && s.conns[a.i].block == b
  }

  /** No action of the run is the validation of block b. */
  ghost predicate Unreached(c: Config, s: Pool, acts: seq<Action>, b: nat)
    requires c.n > 0 && Run(c, s, acts)
    decreases |acts|
  {
    |acts| == 0 || (!ReadsAt(s, acts[0], b) && Unreached(c, Apply(c, s, acts[0]), acts[1..], b))
  }

  // ------------------------------------------------------- the same run, undamaged

  ghost predicate Hidden(c: Config, s: Pool, b: nat, received: seq<Byte>) {
    Inv(c, s) && b < c.n && Unread(s, b) && |received| == c.maxPayload
  }

  /** Whoever holds a block and is not about to validate it holds another one. */
  lemma {:induction false} Elsewhere(c: Config, s: Pool, b: nat, i: nat)
    requires Inv(c, s) && Unread(s, b) && i < |s.conns| && Holds(s.conns[i]) && !ReadsAt(s, Step(i), b)
    ensures s.conns[i].block != b && s.conns[i].block < c.n
  {
    assert ConnOk(c, s, i);
  }

  lemma {:induction false} OwnedTwin(c: Config, s: Pool, z: Pool, b: nat, received: seq<Byte>, i: nat)
    requires Hidden(c, s, b, received) && Twin(s, z, b, received) && i < |s.conns| && !ReadsAt(s, Step(i), b)
    requires OwnedPc(s.conns[i].pc)
    ensures Twin(Advance(c, s, i), Advance(c, z, i), b, received)
    ensures Advance(c, s, i).place == s.place && Advance(c, s, i).payload == s.payload
    ensures Advance(c, s, i).desc[b] == s.desc[b]
  {
    assert ConnOk(c, s, i);
    Elsewhere(c, s, b, i);
  }

  lemma {:induction false} InstallTwin(c: Config, s: Pool, z: Pool, b: nat, received: seq<Byte>, i: nat)
    requires Hidden(c, s, b, received) && Twin(s, z, b, received) && i < |s.conns|
    requires s.conns[i].pc.InstallCell?
    ensures Twin(Advance(c, s, i), Advance(c, z, i), b, received)
  {
    assert ConnOk(c, s, i);
    Elsewhere(c, s, b, i);
  }

  lemma {:induction false} QueueTwin(c: Config, s: Pool, z: Pool, b: nat, received: seq<Byte>, i: nat)
    requires Hidden(c, s, b, received) && Twin(s, z, b, received) && i < |s.conns|
    requires s.conns[i].pc.ClaimHead? || s.conns[i].pc.HelpTail? || s.conns[i].pc.AdvanceTail?
    ensures Twin(Advance(c, s, i), Advance(c, z, i), b, received)
  {
  }

  lemma {:induction false} StepTwin(c: Config, s: Pool, z: Pool, b: nat, received: seq<Byte>, i: nat)
    requires Hidden(c, s, b, received) && Twin(s, z, b, received) && i < |s.conns| && !ReadsAt(s, Step(i), b)
    ensures Twin(Advance(c, s, i), Advance(c, z, i), b, received)
  {
    match s.conns[i].pc
    case ClaimHead(_, _) => QueueTwin(c, s, z, b, received, i);
    case HelpTail(_, _) => QueueTwin(c, s, z, b, received, i);
    case AdvanceTail(_, _) => QueueTwin(c, s, z, b, received, i);
    case InstallCell(_, _, _) => InstallTwin(c, s, z, b, received, i);
    case _ => if OwnedPc(s.conns[i].pc) { OwnedTwin(c, s, z, b, received, i); }
  }

  lemma {:induction false} InvokeTwin(c: Config, s: Pool, z: Pool, b: nat, received: seq<Byte>, i: nat, op: Op)
    requires Hidden(c, s, b, received) && Twin(s, z, b, received) && Enabled(c, s, Invoke(i, op))
    ensures Twin(Apply(c, s, Invoke(i, op)), Apply(c, z, Invoke(i, op)), b, received)
  {
    if Holds(s.conns[i]) { Elsewhere(c, s, b, i); }
  }

  lemma {:induction false} WriteByteTwin(c: Config, s: Pool, z: Pool, b: nat, received: seq<Byte>, a: Action)
    requires Hidden(c, s, b, received) && Twin(s, z, b, received) && a.WriteByte? && Enabled(c, z, a)
    ensures Enabled(c, s, a) && Twin(Apply(c, s, a), Apply(c, z, a), b, received)
  {
    assert ConnOk(c, s, a.i);
    Elsewhere(c, s, b, a.i);
    var w := s.conns[a.i].block;
    var patched := Patch(s.payload[w], a.at, a.value);
    assert s.payload[b := received][w := patched] == s.payload[w := patched][b := received];
  }

  lemma {:induction false} ActionTwin(c: Config, s: Pool, z: Pool, b: nat, received: seq<Byte>, a: Action)
    requires Hidden(c, s, b, received) && Twin(s, z, b, received) && Enabled(c, z, a) && !ReadsAt(s, a, b)
    ensures Enabled(c, s, a) && Twin(Apply(c, s, a), Apply(c, z, a), b, received)
  {
    match a
    case Step(i) => StepTwin(c, s, z, b, received, i);
    case Invoke(i, op) => InvokeTwin(c, s, z, b, received, i, op);
    case WriteByte(_, _, _) => WriteByteTwin(c, s, z, b, received, a);
    case _ =>
  }

  // ------------------------------------------------------------- the block meanwhile

  /** The damaged block is still unread and was written by nobody. */
  predicate Untouched(s: Pool, s': Pool, b: nat) {
    && Unread(s', b)
    && b < |s.desc| && b < |s.payload| && b < |s'.desc| && b < |s'.payload|
    && s'.desc[b] == s.desc[b] && s'.payload[b] == s.payload[b]
  }

  lemma {:induction false} ClaimLeaves(c: Config, s: Pool, b: nat, i: nat)
    requires Claims(c, s, i) && b < c.n && Unread(s, b)
    ensures Untouched(s, Advance(c, s, i), b)
  {
    ClaimTakesFront(c, s, i);
    ClaimEffect(c, s, i);
  }

  lemma {:induction false} InstallLeaves(c: Config, s: Pool, b: nat, i: nat)
    requires Installs(c, s, i) && b < c.n && Unread(s, b)
    ensures Untouched(s, Advance(c, s, i), b)
  {
    assert ConnOk(c, s, i);
    Elsewhere(c, s, b, i);
    InstallEffect(c, s, i);
  }

  lemma {:induction false} OwnedLeaves(c: Config, s: Pool, b: nat, i: nat)
    requires Inv(c, s) && b < c.n && Unread(s, b) && i < |s.conns| && OwnedPc(s.conns[i].pc)
    requires !ReadsAt(s, Step(i), b)
    ensures Untouched(s, Advance(c, s, i), b)
  {
    assert ConnOk(c, s, i);
    Elsewhere(c, s, b, i);
    assert BlockOk(c, s, b);
  }

  /** A lost swap, a load or an answer touches no block and no other connection. */
  lemma {:induction false} PlainLeaves(c: Config, s: Pool, i: nat)
    requires c.n > 0 && i < |s.conns| && !OwnedPc(s.conns[i].pc) && !EventOf(c, s, Step(i)).Dequeued?
    requires !EventOf(c, s, Step(i)).Enqueued?
    ensures var s' := Advance(c, s, i);
      && s'.desc == s.desc && s'.payload == s.payload && s'.place == s.place
      && s'.conns == s.conns[i := s'.conns[i]]
  {
    match s.conns[i].pc
    case HelpTail(w, _) => assert w.Free? || w.Ready?;
    case AdvanceTail(w, _) => assert w.Free? || w.Ready?;
    case _ =>
  }

  lemma {:induction false} StepLeaves(c: Config, s: Pool, b: nat, i: nat)
    requires Inv(c, s) && b < c.n && Unread(s, b) && i < |s.conns| && !ReadsAt(s, Step(i), b)
    ensures Untouched(s, Advance(c, s, i), b)
  {
    if Claims(c, s, i) {
      ClaimLeaves(c, s, b, i);
    } else if Installs(c, s, i) {
      InstallLeaves(c, s, b, i);
    } else if OwnedPc(s.conns[i].pc) {
      OwnedLeaves(c, s, b, i);
    } else {
      PlainLeaves(c, s, i);
    }
  }

  lemma {:induction false} CallerLeaves(c: Config, s: Pool, b: nat, a: Action)
    requires Inv(c, s) && b < c.n && Unread(s, b) && Enabled(c, s, a) && !a.Step?
    ensures Untouched(s, Apply(c, s, a), b)
  {
    if a.Invoke? || a.WriteByte? || a.EnableDrain? || a.Abandon? {
      if Holds(s.conns[a.i]) { Elsewhere(c, s, b, a.i); }
    }
  }

  lemma {:induction false} ActionLeaves(c: Config, s: Pool, b: nat, a: Action)
    requires Inv(c, s) && b < c.n && Unread(s, b) && Enabled(c, s, a) && !ReadsAt(s, a, b)
    ensures Untouched(s, Apply(c, s, a), b)
  {
    if a.Step? { StepLeaves(c, s, b, a.i); } else { CallerLeaves(c, s, b, a); }
  }

  lemma {:induction false} RunTwin(c: Config, s: Pool, z: Pool, b: nat, received: seq<Byte>, acts: seq<Action>)
    requires Hidden(c, s, b, received) && Twin(s, z, b, received) && Run(c, z, acts) && Unreached(c, z, acts, b)
    ensures Run(c, s, acts) && Hidden(c, After(c, s, acts), b, received) && Untouched(s, After(c, s, acts), b)
    ensures Twin(After(c, s, acts), After(c, z, acts), b, received)
    decreases |acts|
  {
    if |acts| > 0 {
      ActionTwin(c, s, z, b, received, acts[0]);
      ActionLeaves(c, s, b, acts[0]);
      ActionKeeps(c, s, acts[0]);
      RunTwin(c, Apply(c, s, acts[0]), Apply(c, z, acts[0]), b, received, acts[1..]);
    }
  }

  // ---------------------------------------------------------------- the failed read

  /** A connection whose call is failing, or that failed and gets nothing any more. */
  predicate Refused(s: Pool, i: nat) {
    && i < |s.conns| && s.conns[i].poisoned && s.conns[i].result != Ok && READY <= s.gate
    && match s.conns[i].pc
       case RaiseFailure(reason) => reason != 0
       case RequestRetire => s.failure != 0
       case Idle => s.failure != 0 && s.gate >= RETIRE_REQUESTED
       case _ => false
  }

  lemma {:induction false} ReadFails(c: Config, s: Pool, z: Pool, b: nat, received: seq<Byte>, from: nat, i: nat)
    requires Hidden(c, s, b, received) && Twin(s, z, b, received) && c.checksummed && ReadsAt(s, Step(i), b)
    requires b < |s.desc| && Damaged(s.payload[b], received, s.desc[b].length, from)
    ensures Refused(Advance(c, z, i), i) && Advance(c, z, i).conns[i].result == Integrity
  {
    Reader(c, s, b, i);
    DamageShows(c, s.payload[b], received, s.desc[b].length, from);
    ReadyShows(c, s, b, i);
    BlockFails(c, z.conns[i], z.desc[b], received);
    ReadStep(c, z, i);
  }

  lemma {:induction false} Reader(c: Config, s: Pool, b: nat, i: nat)
    requires Inv(c, s) && Unread(s, b) && ReadsAt(s, Step(i), b)
    ensures s.conns[i].role.Consumer? && READY <= s.gate && b < |s.desc| && b < |s.payload|
  {
    assert ConnOk(c, s, i);
  }

  lemma {:induction false} ReadyShows(c: Config, s: Pool, b: nat, i: nat)
    requires Inv(c, s) && Unread(s, b) && ReadsAt(s, Step(i), b) && b < |s.desc| && b < |s.payload|
    ensures s.desc[b].checksum == ChecksumOf(c, Take(s.payload[b], s.desc[b].length))
  {
    assert ConnOk(c, s, i);
  }

  lemma {:induction false} ReadStep(c: Config, s: Pool, i: nat)
    requires c.n > 0 && i < |s.conns| && s.conns[i].pc.Validate? && s.conns[i].role.Consumer?
    requires s.conns[i].block < |s.desc| && s.conns[i].block < |s.payload|
    ensures var b := s.conns[i].block; var (k', d') := ValidateReady(c, s.conns[i], s.desc[b], s.payload[b]);
      Advance(c, s, i) == Put(s, i, k').(desc := s.desc[b := d'])
  {
  }

  lemma {:induction false} BlockFails(c: Config, k: Conn, d: Desc, received: seq<Byte>)
    requires d.checksum != ChecksumOf(c, Take(received, d.length))
    ensures var (k', d') := ValidateReady(c, k, d, received);
      k'.poisoned && k'.pc == RaiseFailure(FAILURE_INTEGRITY) && k'.result == Integrity && d' == d
  {
  }

  /** What a step of another connection leaves alone. */
  lemma {:induction false} OtherStep(c: Config, s: Pool, j: nat, i: nat)
    requires c.n > 0 && j < |s.conns| && i < |s.conns| && i != j
    ensures var s' := Advance(c, s, j);
      && |s'.conns| == |s.conns| && s'.conns[i] == s.conns[i]
      && s'.gate >= s.gate && (s.failure != 0 ==> s'.failure != 0)
  {
    match s.conns[j].pc
    case ClaimHead(_, _) =>
    case InstallCell(_, _, _) =>
    case HelpTail(_, _) =>
    case AdvanceTail(_, _) =>
    case _ =>
  }

  lemma {:induction false} RefusalStays(c: Config, s: Pool, i: nat, a: Action)
    requires c.n > 0 && Refused(s, i) && Enabled(c, s, a)
    ensures Refused(Apply(c, s, a), i)
    ensures !(a.Invoke? && a.i == i) ==> Apply(c, s, a).conns[i].result == s.conns[i].result
  {
    if a.Step? && a.i != i { OtherStep(c, s, a.i, i); }
  }

  predicate NoNewCall(acts: seq<Action>, i: nat) {
    forall j :: 0 <= j < |acts| ==> !(acts[j].Invoke? && acts[j].i == i)
  }

  lemma {:induction false} RefusedRun(c: Config, s: Pool, i: nat, acts: seq<Action>)
    requires c.n > 0 && Refused(s, i) && Run(c, s, acts)
    ensures Refused(After(c, s, acts), i)
    ensures NoNewCall(acts, i) ==> After(c, s, acts).conns[i].result == s.conns[i].result
    decreases |acts|
  {
    if |acts| > 0 {
      RefusalStays(c, s, i, acts[0]);
      RefusedRun(c, Apply(c, s, acts[0]), i, acts[1..]);
    }
  }

  /** A published block hit by a burst of at most 64 bits before it is read: every run is
      the undamaged run until some consumer i validates the block, and the call in which
      it does answers Integrity.  That call leaves a failure and a gate past READY, and
      whatever anyone does afterwards no call of i answers Ok again. */
  lemma {:induction false} DamageIsRefused(c: Config, roles: seq<Role>, s: Pool, b: nat, received: seq<Byte>, from: nat,
                                           before: seq<Action>, i: nat, after: seq<Action>)
    requires Admitted(c) && Reachable(c, roles, s) && c.checksummed && b < c.n && Unread(s, b)
    requires b < |s.desc| && b < |s.payload| && Damaged(s.payload[b], received, s.desc[b].length, from)
    requires Run(c, Hit(s, b, received), before) && Unreached(c, Hit(s, b, received), before, b)
    requires var u := After(c, Hit(s, b, received), before);
      ReadsAt(u, Step(i), b) && Run(c, Apply(c, u, Step(i)), after)
    ensures Run(c, s, before) && Twin(After(c, s, before), After(c, Hit(s, b, received), before), b, received)
    ensures var u := After(c, Hit(s, b, received), before);
      var v := After(c, Apply(c, u, Step(i)), after);
      && i < |v.conns| && v.conns[i].poisoned && v.conns[i].result != Ok
      && (NoNewCall(after, i) ==> v.conns[i].result == Integrity)
      && (v.conns[i].pc.Idle? ==> v.failure != 0 && v.gate >= RETIRE_REQUESTED)
  {
    ReachableInv(c, roles, s);
    assert BlockOk(c, s, b);
    var hit := Hit(s, b, received);
    RunTwin(c, s, hit, b, received, before);
    var z, u := After(c, s, before), After(c, hit, before);
    ReadFails(c, z, u, b, received, from, i);
    RefusedRun(c, Advance(c, u, i), i, after);
  }
}
