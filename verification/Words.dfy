/** Unsigned words and the power-of-two ring arithmetic of the queue code.

    The C code splits a ticket with `t & mask` and `t & ~mask` and rebuilds an
    entry with `cycle | block`.  The bit operations are kept as bit recursions,
    and the lemmas give the only facts the queue proofs use about them.  */
module Words {

  const U64: nat := 0x1_0000_0000_0000_0000

  function Pow2(k: nat): (p: nat)
    ensures p >= 1
  {
    if k == 0 then 1 else 2 * Pow2(k - 1)
  }

  /** Bitwise x & y. */
  function And(x: nat, y: nat): nat
  {
    if x == 0 || y == 0 then 0
    else (if x % 2 == 1 && y % 2 == 1 then 1 else 0) + 2 * And(x / 2, y / 2)
  }

  /** Bitwise x & ~y. */
  function AndNot(x: nat, y: nat): nat
  {
    if x == 0 then 0
    else (if x % 2 == 1 && y % 2 == 0 then 1 else 0) + 2 * AndNot(x / 2, y / 2)
  }

  /** Bitwise x | y. */
  function Or(x: nat, y: nat): nat
    decreases x + y
  {
    if x == 0 then y
    else if y == 0 then x
    else (if x % 2 == 1 || y % 2 == 1 then 1 else 0) + 2 * Or(x / 2, y / 2)
  }

  /** Successor as a uint64_t. */
  function Inc(x: nat): nat { (x + 1) % U64 }

  /** The capacities that el_geometry admits. */
  ghost predicate Ring(n: nat) {
    exists k: nat :: 1 <= k <= 31 && n == Pow2(k)
  }

  function Slot(n: nat, t: nat): nat requires n > 0 { And(t, n - 1) }

  function Cycle(n: nat, t: nat): nat requires n > 0 { AndNot(t, n - 1) }

  function Entry(n: nat, t: nat, b: nat): nat requires n > 0 { Or(Cycle(n, t), b) }

  /** The entry generation is the ticket's own. */
  predicate Current(n: nat, t: nat, e: nat) requires n > 0 {
    Cycle(n, e) == Cycle(n, t)
  }

  /** The entry generation is exactly one older than the ticket's. */
  predicate Older(n: nat, t: nat, e: nat) requires n > 0 {
    Cycle(n, t) >= n && Cycle(n, e) == Cycle(n, t) - n
  }

  lemma {:induction false} MulAtLeast(m: nat, d: nat)
    requires d >= 1
    ensures m * d >= m
  {
    assert m * d == m * (d - 1) + m;
  }

  /** One quotient and remainder: m divides the difference of two remainders. */
  lemma {:induction false} QuotientUnique(m: nat, q: nat, r: nat, q': nat, r': nat)
    requires r < m && r' < m && m * q + r == m * q' + r'
    ensures q == q' && r == r'
  {
    if q > q' {
      assert m * q == m * q' + m * (q - q');
      MulAtLeast(m, q - q');
    } else if q < q' {
      assert m * q' == m * q + m * (q' - q);
      MulAtLeast(m, q' - q);
    }
  }

  lemma {:induction false} DivModUnique(x: nat, m: nat, q: nat, r: nat)
    requires r < m && x == m * q + r
    ensures x / m == q && x % m == r
  {
    QuotientUnique(m, x / m, x % m, q, r);
  }

  lemma {:induction false} HalfModulo(t: nat, m: nat)
    requires m > 0
    ensures t % (2 * m) == 2 * ((t / 2) % m) + t % 2
  {
    var h, p := t / 2, t % 2;
    var q, r := h / m, h % m;
    HalfSplit(t, m, h, p, q, r);
    DivModUnique(t, 2 * m, q, 2 * r + p);
  }

  lemma {:induction false} HalfSplit(t: nat, m: nat, h: nat, p: nat, q: nat, r: nat)
    requires t == 2 * h + p && h == m * q + r
    ensures t == (2 * m) * q + (2 * r + p)
  {
    assert (2 * m) * q == 2 * (m * q);
  }

  /** The masks of a power of two are remainder and quotient. */
  lemma {:induction false} MaskIsModulo(t: nat, k: nat)
    ensures And(t, Pow2(k) - 1) == t % Pow2(k)
    ensures AndNot(t, Pow2(k) - 1) == t - t % Pow2(k)
    decreases k
  {
    if k == 0 {
      AndNotZero(t);
    } else if t == 0 {
      DivModUnique(0, Pow2(k), 0, 0);
    } else {
      MaskIsModulo(t / 2, k - 1);
      MaskStep(t, Pow2(k - 1));
    }
  }

  lemma {:induction false} MaskStep(t: nat, m: nat)
    requires t > 0 && m > 0
    requires And(t / 2, m - 1) == (t / 2) % m && AndNot(t / 2, m - 1) == t / 2 - (t / 2) % m
    ensures And(t, 2 * m - 1) == t % (2 * m)
    ensures AndNot(t, 2 * m - 1) == t - t % (2 * m)
  {
    HalfModulo(t, m);
    MaskBits(t, m);
  }

  lemma {:induction false} MaskBits(t: nat, m: nat)
    requires t > 0 && m > 0
    ensures And(t, 2 * m - 1) == t % 2 + 2 * And(t / 2, m - 1)
    ensures AndNot(t, 2 * m - 1) == 2 * AndNot(t / 2, m - 1)
  {
    var y := 2 * m - 1;
    assert y % 2 == 1 && y / 2 == m - 1;
  }

  lemma {:induction false} AndNotZero(t: nat)
    ensures AndNot(t, 0) == t
  {
    if t > 0 { AndNotZero(t / 2); }
  }

  /** Or of a multiple of a power of two and a smaller value is their sum. */
  lemma {:induction false} OrIsSum(q: nat, b: nat, k: nat)
    requires b < Pow2(k)
    ensures Or(Pow2(k) * q, b) == Pow2(k) * q + b
    decreases k
  {
    var c := Pow2(k) * q;
    if k == 0 || c == 0 || b == 0 {
    } else {
      var m := Pow2(k - 1);
      calc { c; (2 * m) * q; 2 * (m * q); }
      OrIsSum(q, b / 2, k - 1);
      assert c % 2 == 0 && c / 2 == m * q;
    }
  }

  /** Everything the queue proofs use about slots and cycles of one ticket. */
  lemma {:induction false} SlotSplit(n: nat, t: nat)
    requires Ring(n)
    ensures Slot(n, t) < n && Slot(n, t) == t % n && Cycle(n, t) == t - Slot(n, t)
  {
    var k: nat :| 1 <= k <= 31 && n == Pow2(k);
    MaskIsModulo(t, k);
  }

  lemma {:induction false} EntryParts(n: nat, t: nat, b: nat)
    requires Ring(n) && b < n
    ensures Entry(n, t, b) == Cycle(n, t) + b
    ensures Slot(n, Entry(n, t, b)) == b
    ensures Cycle(n, Entry(n, t, b)) == Cycle(n, t)
  {
    var k: nat :| 1 <= k <= 31 && n == Pow2(k);
    SlotSplit(n, t);
    CycleMultiple(n, t);
    OrIsSum(t / n, b, k);
    var e := Entry(n, t, b);
    DivModUnique(e, n, t / n, b);
    SlotSplit(n, e);
  }

  lemma {:induction false} CycleMultiple(n: nat, t: nat)
    requires n > 0
    ensures t - t % n == n * (t / n)
  {
  }

  lemma {:induction false} OneMore(n: nat, q: nat)
    ensures n * (q + 1) == n * q + n
  {
  }

  lemma {:induction false} ModuloPeriod(n: nat, t: nat)
    requires n > 0
    ensures (t + n) % n == t % n
  {
    OneMore(n, t / n);
    DivModUnique(t + n, n, t / n + 1, t % n);
  }

  /** Tickets n apart share a slot; tickets closer than n do not. */
  lemma {:induction false} SlotPeriod(n: nat, t: nat)
    requires Ring(n)
    ensures Slot(n, t + n) == Slot(n, t)
  {
    SlotSplit(n, t);
    SlotSplit(n, t + n);
    ModuloPeriod(n, t);
  }

  lemma {:induction false} SlotUnique(n: nat, t: nat, s: nat)
    requires Ring(n) && t <= s < t + n && Slot(n, t) == Slot(n, s)
    ensures t == s
  {
    SlotSplit(n, t);
    SlotSplit(n, s);
    ModuloClose(n, t, s);
  }

  lemma {:induction false} ModuloClose(n: nat, t: nat, s: nat)
    requires n > 0 && t <= s < t + n && t % n == s % n
    ensures t == s
  {
    CongruentClose(n, t / n, s / n, t % n, t, s);
  }

  lemma {:induction false} CongruentClose(n: nat, q: nat, q': nat, r: nat, t: nat, s: nat)
    requires t == n * q + r && s == n * q' + r && t <= s < t + n
    ensures t == s
  {
    if q' > q {
      assert n * q' == n * q + n * (q' - q);
      MulAtLeast(n, q' - q);
    } else if q' < q {
      assert n * q == n * q' + n * (q - q');
      MulAtLeast(n, q - q');
    }
  }

  /** Each slot is used by some ticket of every window of n tickets. */
  lemma {:induction false} SlotInWindow(n: nat, lo: nat, t: nat) returns (s: nat)
    requires Ring(n)
    ensures lo <= s < lo + n && Slot(n, s) == Slot(n, t)
  {
    SlotSplit(n, t);
    SlotSplit(n, lo);
    var base, r := lo - Slot(n, lo), Slot(n, t);
    s := base + r;
    BasePlus(n, lo, r, s);
    SlotSplit(n, s);
    if s < lo {
      SlotPeriod(n, s);
      s := s + n;
    }
  }

  lemma {:induction false} BasePlus(n: nat, lo: nat, r: nat, s: nat)
    requires r < n && s == lo - lo % n + r
    ensures s % n == r
  {
    DivModUnique(s, n, lo / n, r);
  }
}
