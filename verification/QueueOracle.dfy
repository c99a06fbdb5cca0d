/** The snapshot oracle of tools/verify_chaos_results.py: it rebuilds a queue's
    contents from two cursors and the entry words alone, with ordinary division. */
module QueueOracle {
  import opened Words
  import opened NcqQueue
  import opened Core
  import opened NcqPool
  import NcqInvariant
  import opened NcqTheorems

  datatype Verdict = Rejected | Members(blocks: set<nat>, frontier: nat)

  predicate CursorOk(x: nat, n: nat) { x < Limit(n) }

  /** Same lap number by division is same cycle by mask. */
  lemma {:induction false} LapIsCycle(n: nat, e: nat, t: nat)
    requires Ring(n) && n > 0
    ensures e / n == t / n <==> Current(n, t, e)
    ensures Slot(n, t) == t % n && t % n < n
  {
    SlotSplit(n, e);
    SlotSplit(n, t);
    CycleMultiple(n, e);
    CycleMultiple(n, t);
    LapsEqual(n, e / n, t / n);
  }

  lemma {:induction false} LapsEqual(n: nat, p: nat, q: nat)
    requires n > 0
    ensures n * p == n * q <==> p == q
  {
    if p > q {
      assert n * p == n * q + n * (p - q);
      MulAtLeast(n, p - q);
    } else if p < q {
      assert n * q == n * p + n * (q - p);
      MulAtLeast(n, q - p);
    }
  }

  method QueueMembers(head: nat, tail: nat, entries: seq<nat>, n: nat) returns (v: Verdict)
    requires n > 0
    ensures v == Spec(head, tail, entries, n)
  {
    if !(CursorOk(head, n) && CursorOk(tail, n)) || |entries| != n { return Rejected; }
    for i := 0 to n
      invariant forall j :: 0 <= j < i ==> entries[j] < U64
    {
      if entries[i] >= U64 { return Rejected; }
    }
    var frontier := tail + if entries[tail % n] / n == tail / n then 1 else 0;
    if !(head <= frontier && frontier - head <= n && frontier - 1 <= tail <= frontier) { return Rejected; }
    var members: seq<nat> := [];
    for ticket := head to frontier
      invariant members == Blocks(entries, n, head, ticket)
      invariant forall t :: head <= t < ticket ==> LiveAt(entries, n, t)
    {
      if entries[ticket % n] / n != ticket / n {
        assert !LiveAt(entries, n, ticket);
        return Rejected;
      }
      members := members + [entries[ticket % n] % n];
    }
    var distinct := Elements(members);
    if |distinct| != |members| { return Rejected; }
    v := Members(distinct, frontier);
  }

  function Elements(xs: seq<nat>): set<nat> { set x | x in xs }

  predicate LiveAt(entries: seq<nat>, n: nat, t: nat)
    requires |entries| == n > 0
  {
    entries[t % n] / n == t / n
  }

  function Blocks(entries: seq<nat>, n: nat, from: nat, end: nat): (r: seq<nat>)
    requires |entries| == n > 0 && from <= end
    ensures |r| == end - from
  {
    if from == end then [] else Blocks(entries, n, from, end - 1) + [entries[(end - 1) % n] % n]
  }

  /** The oracle's verdict as one formula. */
  ghost function Spec(head: nat, tail: nat, entries: seq<nat>, n: nat): Verdict
    requires n > 0
  {
    if !(CursorOk(head, n) && CursorOk(tail, n)) || |entries| != n
       || (exists j :: 0 <= j < n && entries[j] >= U64)
    then Rejected
    else
      var frontier := tail + if LiveAt(entries, n, tail) then 1 else 0;
      if !(head <= frontier && frontier - head <= n && frontier - 1 <= tail <= frontier)
         || (exists t :: head <= t < frontier && !LiveAt(entries, n, t))
      then Rejected
      else
        var members := Blocks(entries, n, head, frontier);
        var distinct := Elements(members);
        if |distinct| != |members| then Rejected else Members(distinct, frontier)
  }

  lemma {:induction false} BlocksAreLog(n: nat, q: Queue, from: nat, end: nat)
    requires n > 0 && QueueInv(n, q) && |q.log| - n <= from <= end <= |q.log|
    ensures Blocks(q.cells, n, from, end) == q.log[from..end]
    decreases end
  {
    if from < end {
      BlocksAreLog(n, q, from, end - 1);
      assert Window(n, q, end - 1);
      LapIsCycle(n, q.cells[(end - 1) % n], end - 1);
      EntryParts(n, end - 1, q.log[end - 1]);
      SlotSplit(n, q.cells[(end - 1) % n]);
    }
  }

  lemma {:induction false} LiveIsInstalled(n: nat, q: Queue, t: nat)
    requires n > 0 && QueueInv(n, q) && t <= |q.log|
    ensures LiveAt(q.cells, n, t) <==> |q.log| - n <= t < |q.log|
  {
    LapIsCycle(n, Cell(n, q, t), t);
    Observe(n, q, t);
  }

  ghost predicate Distinct(xs: seq<nat>) {
    forall i, j :: 0 <= i < j < |xs| ==> xs[i] != xs[j]
  }

  lemma {:induction false} DistinctSize(xs: seq<nat>)
    requires Distinct(xs)
    ensures |Elements(xs)| == |xs|
  {
    if |xs| > 0 {
      var last, front := xs[|xs| - 1], xs[..|xs| - 1];
      DistinctSize(front);
      assert xs == front + [last];
      assert last !in front;
      assert Elements(xs) == Elements(front) + {last};
    }
  }

  lemma {:induction false} Accepts(head: nat, tail: nat, entries: seq<nat>, n: nat, frontier: nat, blocks: seq<nat>)
    requires n > 0 && CursorOk(head, n) && CursorOk(tail, n) && |entries| == n
    requires forall j :: 0 <= j < n ==> entries[j] < U64
    requires frontier == tail + if LiveAt(entries, n, tail) then 1 else 0
    requires head <= frontier && frontier - head <= n && frontier - 1 <= tail <= frontier
    requires forall t :: head <= t < frontier ==> LiveAt(entries, n, t)
    requires blocks == Blocks(entries, n, head, frontier) && Distinct(blocks)
    ensures Spec(head, tail, entries, n) == Members(Elements(blocks), frontier)
  {
    DistinctSize(blocks);
  }

  /** Exactness.  For a queue in any state the protocol can reach, lagging tail or
      head ahead of tail included, the oracle returns exactly the abstract block
      set and the true frontier; it rejects such a snapshot only when a cursor has
      arrived at the ticket ceiling itself. */
  lemma {:induction false} OracleExact(n: nat, q: Queue)
    requires n > 0 && QueueInv(n, q) && Distinct(Contents(q))
    requires forall j :: 0 <= j < n ==> q.cells[j] < U64
    ensures Spec(q.head, q.tail, q.cells, n) ==
      if CursorOk(q.head, n) && CursorOk(q.tail, n)
      then Members(Elements(Contents(q)), |q.log|)
      else Rejected
  {
    if CursorOk(q.head, n) && CursorOk(q.tail, n) {
      LiveIsInstalled(n, q, q.tail);
      forall t | q.head <= t < |q.log| ensures LiveAt(q.cells, n, t) { LiveIsInstalled(n, q, t); }
      BlocksAreLog(n, q, q.head, |q.log|);
      assert q.log[q.head..|q.log|] == Contents(q);
      Accepts(q.head, q.tail, q.cells, n, |q.log|, Contents(q));
    }
  }

  /** In every reachable pool state the oracle rebuilds either queue exactly. */
  lemma {:induction false} OracleOnReachable(c: Config, roles: seq<Role>, s: Pool, w: Which)
    requires Admitted(c) && Reachable(c, roles, s)
    ensures NcqInvariant.Inv(c, s)
    ensures var q := TheQueue(s, w);
      Spec(q.head, q.tail, q.cells, c.n) ==
        if CursorOk(q.head, c.n) && CursorOk(q.tail, c.n)
        then Members(Elements(Contents(q)), |q.log|) else Rejected
  {
    ReachableInv(c, roles, s);
    var q := TheQueue(s, w);
    forall j | 0 <= j < c.n ensures q.cells[j] < U64 { CountersFit(c, roles, s, w, j); }
    ContentsDistinct(c, s, w);
    OracleExact(c.n, q);
  }

  lemma {:induction false} ContentsDistinct(c: Config, s: Pool, w: Which)
    requires NcqInvariant.Inv(c, s)
    ensures Distinct(Contents(TheQueue(s, w)))
  {
    var q := TheQueue(s, w);
    forall i, j | 0 <= i < j < |Contents(q)| ensures Contents(q)[i] != Contents(q)[j] {
      if w.Free? {
        assert NcqInvariant.FreeMember(s, q.head + i) && NcqInvariant.FreeMember(s, q.head + j);
      } else {
        assert NcqInvariant.ReadyMember(s, q.head + i) && NcqInvariant.ReadyMember(s, q.head + j);
      }
    }
  }
}
