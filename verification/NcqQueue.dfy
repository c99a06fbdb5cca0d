/** One NCQ-SC64 index queue: two counters and n entry cells, each changed only
    by single-word atomics.

    `log` is an auxiliary history of the block installed for every ticket, so the
    publication frontier is |log| and the abstract FIFO is the part of the log
    that has not been claimed.  No operation reads the log to decide anything.  */
module NcqQueue {
  import opened Words

  datatype Queue = Queue(head: nat, tail: nat, cells: seq<nat>, log: seq<nat>)

  function Frontier(q: Queue): nat { |q.log| }

  function Contents(q: Queue): seq<nat>
    requires q.head <= |q.log|
  {
    q.log[q.head..]
  }

  function Limit(n: nat): int { U64 - 1 - n }

  /** Frontier order and the publication window: the cell of a ticket among the
      last n installed ones holds exactly that ticket's entry. */
  ghost predicate QueueInv(n: nat, q: Queue) {
    && Ring(n) && n > 0
    && |q.cells| == n
    && n <= |q.log| <= Limit(n)
    && q.head <= |q.log| <= q.head + n
    && |q.log| - 1 <= q.tail <= |q.log|
    && (forall t :: 0 <= t < |q.log| ==> q.log[t] < n)
    && (forall t :: |q.log| - n <= t < |q.log| ==> Window(n, q, t))
  }

  ghost predicate Window(n: nat, q: Queue, t: int)
    requires n > 0
  {
    && 0 <= t < |q.log|
    && Slot(n, t) < |q.cells|
    && q.cells[Slot(n, t)] == Entry(n, t, q.log[t])
  }

  /** The cell a ticket addresses. */
  function Cell(n: nat, q: Queue, t: nat): nat
    requires n > 0
  {
    var j := Slot(n, t);
    if j < |q.cells| then q.cells[j] else 0
  }

  /** Strong compare-and-swap of the tail from t to t + 1. */
  function TailCas(q: Queue, t: nat): Queue {
    if q.tail == t then q.(tail := Inc(t)) else q
  }

  /** The store of a successful head compare-and-swap from h. */
  function HeadAdvance(q: Queue, h: nat): Queue {
    q.(head := Inc(h))
  }

  /** The store of a successful entry compare-and-swap at ticket t. */
  function InstallAt(n: nat, q: Queue, t: nat, b: nat): Queue
    requires n > 0
  {
    var j := Slot(n, t);
    if j < |q.cells| then q.(cells := q.cells[j := Entry(n, t, b)], log := q.log + [b]) else q
  }

  /** What a saved ticket and the present cell say about the frontier. */
  lemma {:induction false} Observe(n: nat, q: Queue, t: nat)
    requires QueueInv(n, q) && t <= |q.log|
    ensures Slot(n, t) < n
    ensures Current(n, t, Cell(n, q, t)) <==> |q.log| - n <= t < |q.log|
    ensures Current(n, t, Cell(n, q, t)) ==> Cell(n, q, t) == Entry(n, t, q.log[t])
    ensures Older(n, t, Cell(n, q, t)) <==> t == |q.log|
  {
    SlotSplit(n, t);
    var s := SlotInWindow(n, |q.log| - n, t);
    assert Window(n, q, s);
    SlotSplit(n, s);
    EntryParts(n, s, q.log[s]);
    if |q.log| - n <= t < |q.log| {
      if s <= t { SlotUnique(n, s, t); } else { SlotUnique(n, t, s); }
    }
    if t == |q.log| {
      SlotPeriod(n, t - n);
      if s <= t - n { SlotUnique(n, s, t - n); } else { SlotUnique(n, t - n, s); }
    }
  }

  /** Tail help never passes the frontier and always keeps the invariant. */
  lemma {:induction false} TailCasKeeps(n: nat, q: Queue, t: nat)
    requires QueueInv(n, q) && t < |q.log|
    ensures QueueInv(n, TailCas(q, t))
    ensures q.tail <= TailCas(q, t).tail
  {
    var q' := TailCas(q, t);
    forall s | |q'.log| - n <= s < |q'.log| ensures Window(n, q', s) {
      assert Window(n, q, s);
    }
  }

  lemma {:induction false} HeadAdvanceKeeps(n: nat, q: Queue)
    requires QueueInv(n, q) && q.head < |q.log|
    ensures QueueInv(n, HeadAdvance(q, q.head))
    ensures HeadAdvance(q, q.head).head == q.head + 1
    ensures Contents(HeadAdvance(q, q.head)) == Contents(q)[1..]
    ensures Contents(q)[0] == q.log[q.head]
  {
    var q' := HeadAdvance(q, q.head);
    forall s | |q'.log| - n <= s < |q'.log| ensures Window(n, q', s) {
      assert Window(n, q, s);
    }
  }

  /** An install at the frontier appends; it overwrites only the dead ticket n
      before it, because the queue is not full. */
  lemma {:induction false} InstallKeeps(n: nat, q: Queue, b: nat)
    requires QueueInv(n, q) && b < n
    requires |q.log| < q.head + n && |q.log| < Limit(n)
    requires q.tail == |q.log|
    ensures QueueInv(n, InstallAt(n, q, |q.log|, b))
    ensures InstallAt(n, q, |q.log|, b).log == q.log + [b]
    ensures Contents(InstallAt(n, q, |q.log|, b)) == Contents(q) + [b]
  {
    var u := |q.log|;
    var q' := InstallAt(n, q, u, b);
    SlotSplit(n, u);
    forall s | u + 1 - n <= s < u + 1 ensures Window(n, q', s) {
      SlotSplit(n, s);
      if s < u {
        assert Window(n, q, s);
        if Slot(n, s) == Slot(n, u) { SlotUnique(n, s, u); }
      }
    }
  }

  /** Entries are native words, and stay below the ticket ceiling. */
  lemma {:induction false} EntryFits(n: nat, t: nat, b: nat)
    requires Ring(n) && b < n && t < Limit(n)
    ensures Entry(n, t, b) <= Limit(n)
  {
    EntryParts(n, t, b);
    SlotSplit(n, t);
    var k: nat :| 1 <= k <= 31 && n == Pow2(k);
    var m := RingDividesWord(n, k);
    CycleBelow(n, m, t);
  }

  lemma {:induction false} CycleBelow(n: nat, m: nat, t: nat)
    requires n >= 1 && m >= 1 && n * m == U64 && t < Limit(n)
    ensures t - t % n + n <= U64 - n
  {
    QuotientBelow(n, t / n, m, t % n, t);
  }

  lemma {:induction false} QuotientBelow(n: nat, q: nat, m: nat, r: nat, t: nat)
    requires r < n && t == n * q + r && m >= 1 && n * m == U64 && t < Limit(n)
    ensures t - r + n <= U64 - n
  {
    assert n * m == n * (m - 1) + n;
    if q >= m - 1 {
      assert n * q == n * (m - 1) + n * (q - (m - 1));
      if q > m - 1 { MulAtLeast(n, q - (m - 1)); }
    } else {
      assert n * (m - 1) == n * q + n * (m - 1 - q);
      MulAtLeast(n, m - 1 - q);
    }
  }

  lemma {:induction false} RingDividesWord(n: nat, k: nat) returns (m: nat)
    requires k <= 64 && n == Pow2(k)
    ensures m >= 1 && n * m == U64
  {
    m := Pow2(64 - k);
    PowSum(k, 64 - k);
    WordPower();
  }

  lemma {:induction false} WordPower()
    ensures Pow2(64) == U64
  {
    assert Pow2(8) == 256;
    assert Pow2(16) == 0x1_0000;
    assert Pow2(24) == 0x100_0000;
    assert Pow2(32) == 0x1_0000_0000;
    assert Pow2(40) == 0x100_0000_0000;
    assert Pow2(48) == 0x1_0000_0000_0000;
    assert Pow2(56) == 0x100_0000_0000_0000;
  }

  lemma {:induction false} PowSum(i: nat, j: nat)
    ensures Pow2(i) * Pow2(j) == Pow2(i + j)
  {
    if i > 0 {
      PowSum(i - 1, j);
      DoubleProduct(Pow2(i - 1), Pow2(j));
    }
  }

  lemma {:induction false} DoubleProduct(x: nat, y: nat)
    ensures (2 * x) * y == 2 * (x * y)
  {
  }
}
