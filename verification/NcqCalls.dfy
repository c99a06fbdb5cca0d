/** el_ncq_enqueue and el_ncq_dequeue as the retry loops of src/elite_mpmc_ncq.c,
    run against arbitrary interference.

    Before each atomic operation the other connections may do anything the queue
    protocol allows except touch a token held here.  `budget` bounds how often
    they do something; each loop ends because a retry is always their doing.  */
module NcqCalls {
  import opened Words
  import opened NcqQueue
  import opened Core
  import opened NcqPool
  import opened NcqInvariant
  import opened NcqSafety
  import opened NcqTheorems
  import opened NcqProgress

  datatype Outcome = Done | SawNone | AtCeiling | Retry

  ghost predicate Distinct(xs: seq<nat>) {
    forall i, j :: 0 <= i < j < |xs| ==> xs[i] != xs[j]
  }

  class SharedQueue {
    const n: nat
    const cells: array<nat>
    var head: nat
    var tail: nat
    ghost var log: seq<nat>
    ghost var budget: nat

    ghost function View(): Queue
      reads this, cells
    {
      Queue(head, tail, cells[..], log)
    }

    ghost predicate Valid()
      reads this, cells
    {
      && n > 0 && cells.Length == n
      && QueueInv(n, View())
      && Distinct(Contents(View()))
    }

    /** The tokens of `mine` are in nobody else's hands and not in the queue. */
    ghost predicate Apart(mine: set<nat>)
      reads this, cells
      requires Valid()
    {
      forall b :: b in mine ==> b < n && b !in Contents(View())
    }

    /** What the other connections may have done since the last look. */
    twostate predicate Interfered()
      reads this, cells
    {
      && Grows(old(View()), View())
      && ((View() == old(View()) && budget == old(budget)) || budget < old(budget))
    }

    /** construct(), as QF (full with the identity) or QR (empty, one lap ahead). */
    constructor (n: nat, full: bool, ghost budget: nat)
      requires Ring(n) && 0 < n <= Limit(n)
      ensures Valid() && this.n == n && this.budget == budget
      ensures Contents(View()) == if full then seq(n, i => i) else []
    {
      this.n := n;
      this.cells := new nat[n](i requires 0 <= i < n => if full then i else 0);
      this.head := if full then 0 else n;
      this.tail := n;
      this.log := seq(n, i => if full then i else 0);
      this.budget := budget;
      new;
      forall t | 0 <= t < n ensures Window(n, View(), t) {
        SlotSplit(n, t);
        DivModUnique(t, n, 0, t);
        EntryParts(n, t, if full then t else 0);
      }
    }

    method Interfere(ghost mine: set<nat>)
      requires Valid() && Apart(mine)
      modifies this, cells
      ensures Valid() && Apart(mine) && Interfered()
    {
    }

    method LoadTail(ghost mine: set<nat>) returns (t: nat)
      requires Valid() && Apart(mine)
      modifies this, cells
      ensures Valid() && Apart(mine) && Interfered() && t == tail
    {
      Interfere(mine);
      t := tail;
    }

    method LoadHead(ghost mine: set<nat>) returns (h: nat)
      requires Valid() && Apart(mine)
      modifies this, cells
      ensures Valid() && Apart(mine) && Interfered() && h == head
    {
      Interfere(mine);
      h := head;
    }

    method LoadCell(ghost mine: set<nat>, t: nat) returns (e: nat)
      requires Valid() && Apart(mine)
      modifies this, cells
      ensures Valid() && Apart(mine) && Interfered() && e == Cell(n, View(), t)
    {
      Interfere(mine);
      SlotSplit(n, t);
      e := cells[Slot(n, t)];
    }

    /** Strong CAS of the tail; its result is ignored by both callers. */
    method CasTail(ghost mine: set<nat>, t: nat)
      requires Valid() && Apart(mine) && t < |log|
      modifies this, cells
      ensures Valid() && Apart(mine)
      ensures Grows(old(View()), View()) && tail > t
      ensures budget < old(budget) || (budget == old(budget) && View() == TailCas(old(View()), t))
    {
      Interfere(mine);
      ghost var before := View();
      TailCasKeeps(n, before, t);
      if tail == t { tail := Inc(t); }
      assert View() == TailCas(before, t);
    }

    method CasHead(h: nat, ghost e: nat) returns (won: bool)
      requires Valid() && h <= head && h < |log| && e == Entry(n, h, log[h])
      modifies this, cells
      ensures Valid() && Grows(old(View()), View())
      ensures won ==> head == h + 1
      ensures won ==> log[h] == Slot(n, e) < n && Apart({log[h]})
      ensures !won ==> (budget < old(budget) || (budget == old(budget) && View() == old(View()) && head != h))
    {
      Interfere({});
      EntryParts(n, h, log[h]);
      won := head == h;
      if won {
        ghost var before := View();
        HeadAdvanceKeeps(n, before);
        head := Inc(h);
        assert View() == HeadAdvance(before, h);
        assert Contents(before)[1..] == Contents(View());
        assert forall i :: 0 <= i < |Contents(View())| ==> Contents(View())[i] == Contents(before)[i + 1];
        assert Contents(before)[0] == log[h];
      }
    }

    /** The entry CAS.  No check for a full queue: the caller's token is enough. */
    method CasCell(block: nat, t: nat, e: nat) returns (won: bool)
      requires Valid() && block < n && Apart({block})
      requires t < Limit(n) && t <= tail && Older(n, t, e)
      modifies this, cells
      ensures Valid() && Grows(old(View()), View())
      ensures won ==> |old(log)| <= t < |log| && log == log[..t] + [block] && tail >= t
      ensures !won ==> Apart({block})
      ensures !won ==>
        (budget < old(budget) || (budget == old(budget) && View() == old(View()) && Cell(n, View(), t) != e))
    {
      Interfere({block});
      SlotSplit(n, t);
      won := cells[Slot(n, t)] == e;
      if won {
        ghost var before := View();
        Observe(n, before, t);
        Pigeonhole(n, Contents(before), block);
        InstallKeeps(n, before, block);
        cells[Slot(n, t)] := Entry(n, t, block);
        log := log + [block];
        assert View() == InstallAt(n, before, t, block);
      }
    }

    /** The tail counter is not yet at the frontier. */
    ghost function Lag(): nat
      reads this
    {
      if tail == |log| then 0 else 1
    }

    /** One pass of the enqueue loop.  It asks for another only after interference
        or after helping a lagging tail. */
    method EnqueuePass(block: nat) returns (r: Outcome, ghost ticket: nat)
      requires Valid() && block < n && Apart({block})
      modifies this, cells
      ensures Valid() && Grows(old(View()), View())
      ensures r == Done || r == AtCeiling || r == Retry
      ensures r == Done ==> |old(log)| <= ticket < |log| && log[ticket] == block && tail > ticket
      ensures r != Done ==> Apart({block})
      ensures r == AtCeiling ==> tail >= Limit(n)
      ensures r == Retry ==> (budget < old(budget) || (budget == old(budget) && Lag() < old(Lag())))
    {
      ticket := 0;
      var t := LoadTail({block});
      if t >= Limit(n) { return AtCeiling, 0; }
      var e := LoadCell({block}, t);
      Observe(n, View(), t);
      if Current(n, t, e) {
        CasTail({block}, t);
        return Retry, 0;
      }
      if !Older(n, t, e) { return Retry, 0; }
      var won := InstallAndAdvance(block, t, e);
      return if won then Done else Retry, t;
    }

    /** The entry CAS and, when it wins, the tail CAS that follows it. */
    method InstallAndAdvance(block: nat, t: nat, e: nat) returns (won: bool)
      requires Valid() && block < n && Apart({block})
      requires t < Limit(n) && t <= tail && Older(n, t, e)
      modifies this, cells
      ensures Valid() && Grows(old(View()), View())
      ensures won ==> |old(log)| <= t < |log| && log[t] == block && tail > t
      ensures !won ==> Apart({block})
      ensures !won ==>
        (budget < old(budget) || (budget == old(budget) && View() == old(View()) && Cell(n, View(), t) != e))
    {
      won := CasCell(block, t, e);
      if won { CasTail({}, t); }
    }

    /** Installs the caller's token at a ticket of its own, unless the ticket
        ceiling stops it first; then the caller keeps the token. */
    method Enqueue(block: nat) returns (r: Outcome, ghost ticket: nat)
      requires Valid() && block < n && Apart({block})
      modifies this, cells
      ensures Valid() && Grows(old(View()), View())
      ensures r == Done || r == AtCeiling
      ensures r == Done ==> |old(log)| <= ticket < |log| && log[ticket] == block && tail > ticket
      ensures r == AtCeiling ==> Apart({block}) && tail >= Limit(n)
    {
      r, ticket := Retry, 0;
      while r == Retry
        invariant Valid() && Grows(old(View()), View())
        invariant r == Retry || r == Done || r == AtCeiling
        invariant r != Done ==> Apart({block})
        invariant r == Done ==> |old(log)| <= ticket < |log| && log[ticket] == block && tail > ticket
        invariant r == AtCeiling ==> tail >= Limit(n)
        decreases r == Retry, budget, Lag()
      {
        r, ticket := EnqueuePass(block);
      }
    }

    /** Claims the front block, or reports an instant at which the queue was
        empty.  The ceiling and integrity exits of the C loop are dead code. */
    method Dequeue() returns (r: Outcome, block: nat, ghost ticket: nat, ghost instant: Queue)
      requires Valid()
      modifies this, cells
      ensures Valid() && Grows(old(View()), View())
      ensures r == Done || r == SawNone
      ensures r == Done ==>
        old(head) <= ticket < head && ticket < |log| && log[ticket] == block && Apart({block})
      ensures r == SawNone ==>
        Grows(old(View()), instant) && Grows(instant, View()) && instant.head == |instant.log|
    {
      block, ticket, instant := 0, 0, View();
      while true
        invariant Valid() && Grows(old(View()), View())
        decreases budget
      {
        var h := LoadHead({});
        if h > Limit(n) { assert false; }
        var e := LoadCell({}, h);
        Observe(n, View(), h);
        if Current(n, h, e) {
          if h >= Limit(n) { assert false; }
          var won := CasHead(h, e);
          if !won { continue; }
          return Done, Slot(n, e), h, View();
        }
        if Older(n, h, e) { return SawNone, 0, 0, View(); }
      }
    }
  }

  /** The interference contract is what the pool does: whatever other connections
      do, both queues only grow and a token held by connection i stays apart. */
  lemma {:induction false} OthersRespectTokens(c: Config, s: Pool, a: Action, i: nat, w: Which)
    requires Inv(c, s) && Enabled(c, s, a) && i < |s.conns|
    requires a != Step(i) && a != Abandon(i) && !(a.Invoke? && a.i == i)
    ensures Inv(c, Apply(c, s, a))
    ensures Grows(TheQueue(s, w), TheQueue(Apply(c, s, a), w))
    ensures Holds(s.conns[i]) ==> s.conns[i].block !in Contents(TheQueue(Apply(c, s, a), w))
  {
    var s' := Apply(c, s, a);
    ActionKeeps(c, s, a);
    if a.Step? { StepGrows(c, s, a.i); StepKeepsOffer(c, s, a.i, i); } else { PlainCaller(c, s, a); }
    if Holds(s.conns[i]) {
      assert ConnOk(c, s', i);
      FreeCount(c, s', s.conns[i].block);
      ReadyCount(c, s', s.conns[i].block);
    }
  }

  lemma {:induction false} StepGrows(c: Config, s: Pool, i: nat)
    requires Inv(c, s) && i < |s.conns|
    ensures var s' := Advance(c, s, i); Grows(s.free, s'.free) && Grows(s.ready, s'.ready)
  {
    assert ConnOk(c, s, i);
    if Claims(c, s, i) {
      ClaimEffect(c, s, i);
    } else if Installs(c, s, i) {
      InstallEffect(c, s, i);
    } else {
      OnlyTailsMove(c, s, i);
    }
  }
}
