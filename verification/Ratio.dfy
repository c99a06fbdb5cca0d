/** bench_json_ratio of benchmarks/bench_ratio.c: n1 * n2 / (d1 * d2) in decimal, by
    schoolbook multiplication, binary long division and decimal long division on
    160-bit numbers. */
module Ratio {
  import opened Bits
  import opened Limbs
  import Words

  // ---------------------------------------------------------------- multiplication

  type Double = x: nat | x < WORD

  function Part(a: Double, i: nat): Limb { if i == 0 then a % B else if i == 1 then a / B else 0 }

  /** c moved up k limbs. */
  function Shifted(c: nat, k: nat): nat { if k == 0 then c else B * Shifted(c, k - 1) }

  lemma {:induction false} ShiftedSum(c: nat, d: nat, k: nat)
    ensures Shifted(c + d, k) == Shifted(c, k) + Shifted(d, k)
  {
    if k > 0 { ShiftedSum(c, d, k - 1); }
  }

  lemma {:induction false} ShiftedZero(k: nat)
    ensures Shifted(0, k) == 0
  {
    if k > 0 { ShiftedZero(k - 1); }
  }

  lemma {:induction false} ShiftedUp(c: nat, k: nat)
    ensures Shifted(c * B, k) == Shifted(c, k + 1)
  {
    if k > 0 { ShiftedUp(c, k - 1); }
  }

  /** x * y, kept out of the linear reasoning about limbs. */
  function Mul(x: nat, y: nat): nat { if y == 0 then 0 else x + Mul(x, y - 1) }

  lemma {:induction false} MulIsProduct(x: nat, y: nat)
    ensures Mul(x, y) == x * y
  {
    if y > 0 {
      MulIsProduct(x, y - 1);
      assert x * y == x + x * (y - 1);
    }
  }

  /** Sum of the partial products finished before row i, column j. */
  function Rows(a: Double, b: Double, i: nat, j: nat): nat
    requires j <= 2
    decreases i, j
  {
    if j > 0 then Rows(a, b, i, j - 1) + Shifted(Mul(Part(a, i), Part(b, j - 1)), i + j - 1)
    else if i > 0 then Rows(a, b, i - 1, 2)
    else 0
  }

  lemma {:induction false} SetLimb(s: seq<Limb>, k: nat, x: Limb)
    requires k < |s|
    ensures Value(s[k := x]) + Shifted(s[k], k) == Value(s) + Shifted(x, k)
  {
    if k == 0 {
      assert s[0 := x][1..] == s[1..];
    } else {
      assert s[k := x][1..] == s[1..][k - 1 := x];
      SetLimb(s[1..], k - 1, x);
    }
  }

  /** A column's product, the limb there and the carry fit 64 bits. */
  lemma {:induction false} ColumnFits(x: Limb, y: Limb, limb: Limb, carry: Limb)
    ensures x * y + limb + carry < WORD
  {
    MulBound(x, y, B - 1);
  }

  lemma {:induction false} MulBound(x: nat, y: nat, m: nat)
    requires x <= m && y <= m
    ensures x * y <= m * m
  {
    assert x * y <= m * y;
    assert m * y <= m * m;
  }

  /** One column in 64-bit arithmetic: no carry is lost. */
  method MultiplyAdd(x: Limb, y: Limb, limb: Limb, carry: Limb) returns (low: Limb, high: Limb)
    ensures low + B * high == Mul(x, y) + limb + carry
  {
    MulIsProduct(x, y);
    ColumnFits(x, y, limb, carry);
    var v := x * y + limb + carry;
    low, high := v % B, v / B;
  }

  /** Storing the low limb and carrying the high one keeps the total. */
  lemma {:induction false} Column(was: seq<Limb>, k: nat, p: nat, carry: nat, low: Limb, high: Limb)
    requires k < |was| && low + B * high == p + was[k] + carry
    ensures Value(was[k := low]) + Shifted(high, k + 1) == Value(was) + Shifted(carry, k) + Shifted(p, k)
  {
    SetLimb(was, k, low);
    ShiftedUp(high, k);
    ShiftedSum(low, high * B, k);
    ShiftedSum(p + was[k], carry, k);
    ShiftedSum(p, was[k], k);
  }

  lemma {:induction false} RowsOf(a: Double, b: Double, i: nat)
    ensures Rows(a, b, i, 2) ==
      Rows(a, b, i, 0) + Shifted(Mul(Part(a, i), Part(b, 0)), i) + Shifted(Mul(Part(a, i), Part(b, 1)), i + 1)
  {
    assert Rows(a, b, i, 1) == Rows(a, b, i, 0) + Shifted(Mul(Part(a, i), Part(b, 0)), i);
  }

  lemma {:induction false} SumRows(a: Double, b: Double)
    ensures Rows(a, b, 2, 0) ==
      Mul(Part(a, 0), Part(b, 0)) + B * Mul(Part(a, 0), Part(b, 1))
      + B * Mul(Part(a, 1), Part(b, 0)) + B * (B * Mul(Part(a, 1), Part(b, 1)))
  {
    RowsOf(a, b, 0);
    RowsOf(a, b, 1);
    var p := Mul(Part(a, 1), Part(b, 1));
    assert Shifted(p, 2) == B * Shifted(p, 1);
  }

  lemma {:induction false} AllRows(a: Double, b: Double)
    ensures Rows(a, b, 2, 0) == a * b
  {
    SumRows(a, b);
    MulIsProduct(Part(a, 0), Part(b, 0));
    MulIsProduct(Part(a, 0), Part(b, 1));
    MulIsProduct(Part(a, 1), Part(b, 0));
    MulIsProduct(Part(a, 1), Part(b, 1));
    Expand(Part(a, 0), Part(a, 1), Part(b, 0), Part(b, 1));
    assert a == Part(a, 0) + B * Part(a, 1) && b == Part(b, 0) + B * Part(b, 1);
  }

  lemma {:induction false} Expand(x0: nat, x1: nat, y0: nat, y1: nat)
    ensures (x0 + B * x1) * (y0 + B * y1) == x0 * y0 + B * (x0 * y1) + B * (x1 * y0) + B * (B * (x1 * y1))
  {
    var y := y0 + B * y1;
    assert (x0 + B * x1) * y == x0 * y + B * x1 * y;
    assert x0 * y == x0 * y0 + x0 * (B * y1);
    assert x1 * y == x1 * y0 + x1 * (B * y1);
  }

  method Product(a: Double, b: Double) returns (r: array<Limb>)
    ensures fresh(r) && r.Length == LIMBS && Value(r[..]) == a * b
  {
    r := new Limb[LIMBS](_ => 0);
    ValueZero(r[..]);
    for i := 0 to 2
      invariant Value(r[..]) == Rows(a, b, i, 0)
      invariant forall k :: i + 2 <= k < LIMBS ==> r[k] == 0
    {
      var carry: Limb := 0;
      ShiftedZero(i);
      for j := 0 to 2
        invariant forall k :: i + 2 <= k < LIMBS ==> r[k] == 0
        invariant Value(r[..]) + Shifted(carry, i + j) == Rows(a, b, i, j)
      {
        ghost var was := r[..];
        var low, high := MultiplyAdd(Part(a, i), Part(b, j), r[i + j], carry);
        Column(was, i + j, Mul(Part(a, i), Part(b, j)), carry, low, high);
        r[i + j] := low;
        assert r[..] == was[i + j := low];
        carry := high;
      }
      ghost var was := r[..];
      SetLimb(was, i + 2, carry);
      ShiftedZero(i + 2);
      r[i + 2] := carry;
      assert r[..] == was[i + 2 := carry];
    }
    AllRows(a, b);
  }

  // -------------------------------------------------------------- binary division

  /** One more dividend bit: the step without and with a subtraction. */
  lemma {:induction false} DivisionStep(high: nat, q: nat, d: nat, r: nat, bit: nat)
    requires high == q * d + r
    ensures 2 * high + bit == (2 * q) * d + (2 * r + bit)
    ensures 2 * high + bit == (2 * q + 1) * d + (2 * r + bit) - d
  {
    assert (2 * q) * d == 2 * (q * d);
    assert (2 * q + 1) * d == 2 * (q * d) + d;
  }

  lemma {:induction false} NextBit(whole: seq<Limb>, q: seq<Limb>, i: nat, d: nat, r: nat)
    requires i < 32 * |whole| && Clear(q, i + 1) && Above(whole, i + 1) == Above(q, i + 1) * d + r
    ensures var bit := Shr(whole[i / 32], i % 32) % 2;
      && bit <= 1 && Clear(q, i) && Above(q, i) == 2 * Above(q, i + 1)
      && Above(whole, i) == Above(q, i) * d + (2 * r + bit)
      && Above(whole, i) == (Above(q, i) + 1) * d + (2 * r + bit) - d
  {
    BitInLimb(whole, i);
    AboveStep(whole, i);
    AboveStep(q, i);
    ClearBit(q, i);
    DivisionStep(Above(whole, i + 1), Above(q, i + 1), d, r, BitAt(whole, i));
  }

  method SetBit(q: array<Limb>, i: nat)
    requires q.Length == LIMBS && i < 32 * LIMBS && Clear(q[..], i + 1)
    modifies q
    ensures Clear(q[..], i) && Above(q[..], i) == 2 * Above(old(q[..]), i + 1) + 1
  {
    ghost var was := q[..];
    BitSet(was, i);
    var bit := Words.Pow2(i % 32);
    // the bit is still 0, so | adds it
    if Shr(q[i / 32], i % 32) % 2 == 0 { q[i / 32] := q[i / 32] + bit; }
    var limb: Limb := was[i / 32] + bit;
    assert q[..] == was[i / 32 := limb];
  }

  /** One bit of the long division. */
  method DivideBit(a: array<Limb>, d: array<Limb>, q: array<Limb>, r: array<Limb>, i: nat)
    requires a.Length == d.Length == q.Length == r.Length == LIMBS && q != r && a != q && a != r && d != q && d != r
    requires i < 32 * LIMBS && 2 * Value(d[..]) <= Weight(LIMBS)
    requires Clear(q[..], i + 1) && Value(r[..]) < Value(d[..])
    requires Above(a[..], i + 1) == Above(q[..], i + 1) * Value(d[..]) + Value(r[..])
    modifies q, r
    ensures Clear(q[..], i) && Value(r[..]) < Value(d[..])
    ensures Above(a[..], i) == Above(q[..], i) * Value(d[..]) + Value(r[..])
  {
    var bit := Shr(a[i / 32], i % 32) % 2;
    NextBit(a[..], q[..], i, Value(d[..]), Value(r[..]));
    Shift(r, bit);
    var order := Compare(r, d);
    if order >= 0 {
      Subtract(r, d);
      SetBit(q, i);
    }
  }

  method Divide(a: array<Limb>, d: array<Limb>) returns (q: array<Limb>, r: array<Limb>)
    requires a.Length == d.Length == LIMBS && 0 < Value(d[..]) && 2 * Value(d[..]) <= Weight(LIMBS)
    ensures fresh(q) && fresh(r) && q != r && q.Length == r.Length == LIMBS
    ensures Value(a[..]) == Value(q[..]) * Value(d[..]) + Value(r[..]) && Value(r[..]) < Value(d[..])
  {
    q, r := new Limb[LIMBS](_ => 0), new Limb[LIMBS](_ => 0);
    ghost var whole, divisor := a[..], Value(d[..]);
    var k := 32 * LIMBS;
    ZeroesClear(q[..], k);
    ValueZero(r[..]);
    AboveNone(whole, k);
    while k > 0
      invariant 0 <= k <= 32 * LIMBS && a[..] == whole && Value(d[..]) == divisor
      invariant Clear(q[..], k) && Value(r[..]) < divisor
      invariant Above(whole, k) == Above(q[..], k) * divisor + Value(r[..])
    {
      DivideBit(a, d, q, r, k - 1);
      k := k - 1;
    }
    AboveAll(whole, k);
    AboveAll(q[..], k);
  }

  // ------------------------------------------------------------------- the digits

  function Power10(n: nat): nat { if n == 0 then 1 else 10 * Power10(n - 1) }

  function Horner(s: seq<nat>): nat {
    if s == [] then 0 else 10 * Horner(s[..|s| - 1]) + s[|s| - 1]
  }

  /** Decimal digits of a natural number, most significant first. */
  function Decimal(q: nat): (s: seq<nat>)
    ensures |s| > 0 && Horner(s) == q && forall i :: 0 <= i < |s| ==> s[i] < 10
    ensures q > 0 ==> s[0] > 0
  {
    if q < 10 then [q] else Decimal(q / 10) + [q % 10]
  }

  /** How often d can be taken away from x, and what remains. */
  function HowOften(x: nat, d: nat): nat
    requires d > 0
  {
    if x < d then 0 else 1 + HowOften(x - d, d)
  }

  function Remains(x: nat, d: nat): (e: nat)
    requires d > 0
    ensures e < d
  {
    if x < d then x else Remains(x - d, d)
  }

  lemma {:induction false} HowOftenRemains(x: nat, d: nat)
    requires d > 0
    ensures x == d * HowOften(x, d) + Remains(x, d)
  {
    if x >= d {
      HowOftenRemains(x - d, d);
      assert d * (1 + HowOften(x - d, d)) == d + d * HowOften(x - d, d);
    }
  }

  lemma {:induction false} HowOftenBelow(x: nat, d: nat, n: nat)
    requires d > 0 && x < n * d
    ensures HowOften(x, d) < n
  {
    if x >= d {
      assert n > 0 && (n - 1) * d == n * d - d;
      HowOftenBelow(x - d, d, n - 1);
    }
  }

  /** Decimal long division of r by d, stopping after m digits or when it comes out. */
  function Fraction(r: nat, d: nat, m: nat): (f: seq<nat>)
    requires r < d
    ensures |f| <= m && (m > 0 ==> |f| > 0)
    ensures forall i :: 0 <= i < |f| ==> f[i] < 10
    decreases m
  {
    if m == 0 then []
    else
      HowOftenBelow(10 * r, d, 10);
      [HowOften(10 * r, d)] + if Remains(10 * r, d) == 0 then [] else Fraction(Remains(10 * r, d), d, m - 1)
  }

  /** What is left over after the digits of Fraction(r, d, m). */
  function Leftover(r: nat, d: nat, m: nat): (left: nat)
    requires r < d
    ensures left < d
    decreases m
  {
    if m == 0 then r
    else if Remains(10 * r, d) == 0 then 0 else Leftover(Remains(10 * r, d), d, m - 1)
  }

  lemma {:induction false} HornerFront(x: nat, s: seq<nat>)
    ensures Horner([x] + s) == x * Power10(|s|) + Horner(s)
  {
    if s == [] {
      assert [x] + s == [x];
    } else {
      var front := s[..|s| - 1];
      assert ([x] + s)[..|s|] == [x] + front;
      HornerFront(x, front);
      assert x * Power10(|s|) == 10 * (x * Power10(|s| - 1));
    }
  }

  lemma {:induction false} Combine(r: nat, d: nat, x: nat, e: nat, w: nat, h: nat, left: nat)
    requires 10 * r == x * d + e && e * w == h * d + left
    ensures r * (10 * w) == (x * w + h) * d + left
  {
    assert r * (10 * w) == (10 * r) * w;
    assert (x * d + e) * w == x * d * w + e * w;
    assert (x * w + h) * d == x * w * d + h * d;
    assert x * d * w == x * w * d;
  }

  /** The digits spell r / d exactly to their place; fewer than m of them appear only
      when nothing is left over. */
  lemma {:induction false} FractionIsExact(r: nat, d: nat, m: nat)
    requires r < d
    ensures r * Power10(|Fraction(r, d, m)|) == Horner(Fraction(r, d, m)) * d + Leftover(r, d, m)
    ensures |Fraction(r, d, m)| < m ==> Leftover(r, d, m) == 0
    decreases m
  {
    if m > 0 {
      var x, e := HowOften(10 * r, d), Remains(10 * r, d);
      HowOftenRemains(10 * r, d);
      if e == 0 {
        assert Fraction(r, d, m) == [x];
        OneDigit(r, d, x);
      } else {
        FractionIsExact(e, d, m - 1);
        var f := Fraction(e, d, m - 1);
        assert Fraction(r, d, m) == [x] + f;
        HornerFront(x, f);
        Combine(r, d, x, e, Power10(|f|), Horner(f), Leftover(e, d, m - 1));
      }
    }
  }

  lemma {:induction false} OneDigit(r: nat, d: nat, x: nat)
    requires 10 * r == d * x
    ensures r * Power10(|[x]|) == Horner([x]) * d
  {
    assert [x][..0] == [];
    assert Power10(1) == 10 * Power10(0);
  }

  /** For n / d == q with remainder r: integer and fractional digits together are n / d
      truncated to their place, and exactly n / d when fewer than m fractional digits
      were needed. */
  lemma {:induction false} RatioIsExact(n: nat, d: nat, q: nat, r: nat, m: nat)
    requires n == q * d + r && r < d
    ensures var f, left := Fraction(r, d, m), Leftover(r, d, m);
      && n * Power10(|f|) == (Horner(Decimal(q)) * Power10(|f|) + Horner(f)) * d + left
      && left < d && (|f| < m ==> left == 0)
  {
    var f := Fraction(r, d, m);
    FractionIsExact(r, d, m);
    Join(n, q, d, r, Power10(|f|), Horner(f), Leftover(r, d, m));
  }

  lemma {:induction false} Join(n: nat, q: nat, d: nat, r: nat, w: nat, h: nat, left: nat)
    requires n == q * d + r && r * w == h * d + left
    ensures n * w == (q * w + h) * d + left
  {
    assert n * w == q * d * w + r * w;
    assert (q * w + h) * d == q * w * d + h * d;
    assert q * d * w == q * w * d;
  }

  // ---------------------------------------------------------------- bench_json_ratio

  const PLACES := 80

  const BUFFER := 64

  function Digit(x: nat): char
    requires x < 10
  {
    '0' + x as char
  }

  function Text(s: seq<nat>): (t: string)
    requires forall i :: 0 <= i < |s| ==> s[i] < 10
    ensures |t| == |s|
  {
    if s == [] then "" else [Digit(s[0])] + Text(s[1..])
  }

  lemma {:induction false} TextJoin(s: seq<nat>, t: seq<nat>)
    requires forall i :: 0 <= i < |s| ==> s[i] < 10
    requires forall i :: 0 <= i < |t| ==> t[i] < 10
    ensures (forall i :: 0 <= i < |s + t| ==> (s + t)[i] < 10) && Text(s + t) == Text(s) + Text(t)
  {
    if s == [] {
      assert s + t == t;
    } else {
      TextJoin(s[1..], t);
      assert (s + t)[1..] == s[1..] + t;
    }
  }

  function FractionText(r: nat, d: nat, m: nat): string
    requires r < d
  {
    Text(Fraction(r, d, m))
  }

  /** What is printed for q + r / d; RatioIsExact says what it means. */
  function Rendered(q: nat, r: nat, d: nat, places: nat): string
    requires r < d
  {
    Text(Decimal(q)) + "." + FractionText(r, d, places)
  }

  lemma {:induction false} FractionTextStep(r: nat, d: nat, m: nat, digit: nat, rest: nat)
    requires r < d && m > 0 && digit == HowOften(10 * r, d) && rest == Remains(10 * r, d)
    ensures digit < 10
    ensures FractionText(r, d, m) == [Digit(digit)] + if rest == 0 then "" else FractionText(rest, d, m - 1)
  {
    HowOftenBelow(10 * r, d, 10);
    var tail := if rest == 0 then [] else Fraction(rest, d, m - 1);
    assert Fraction(r, d, m) == [digit] + tail;
    assert Fraction(r, d, m)[1..] == tail;
  }

  /** An output stream that accepts `room` characters and then fails. */
  class Sink {
    const room: nat
    var text: string
    var failed: bool

    predicate Valid() reads this { |text| <= room }

    method Put(c: char) returns (ok: bool)
      requires Valid()
      modifies this
      ensures Valid() && ok == (|old(text)| < room)
      ensures text == (if ok then old(text) + [c] else old(text)) && failed == (old(failed) || !ok)
    {
      ok := |text| < room;
      if ok { text := text + [c]; } else { failed := true; }
    }
  }

  lemma {:induction false} TenTimes(x: nat, y: nat)
    ensures (10 * x) * y == 10 * (x * y)
  {
  }

  lemma {:induction false} Power10Sum(a: nat, b: nat)
    ensures Power10(a + b) == Power10(a) * Power10(b)
  {
    if a > 0 {
      Power10Sum(a - 1, b);
      TenTimes(Power10(a - 1), Power10(b));
    }
  }

  lemma {:induction false} Power10Grows(a: nat, b: nat)
    requires a <= b
    ensures 0 < Power10(a) <= Power10(b)
  {
    if a < b {
      Power10Grows(a, b - 1);
    } else if a > 0 {
      Power10Grows(a - 1, a - 1);
    }
  }

  /** q divided by ten `count` times, rounding down. */
  function Tens(q: nat, count: nat): nat { if count == 0 then q else Tens(q, count - 1) / 10 }

  lemma {:induction false} TimesMonotone(d: nat, x: nat, y: nat)
    requires x <= y
    ensures d * x <= d * y
  {
    assert d * y == d * x + d * (y - x);
  }

  lemma {:induction false} TensBound(q: nat, count: nat)
    ensures Tens(q, count) * Power10(count) <= q
  {
    if count > 0 {
      TensBound(q, count - 1);
      var t, p := Tens(q, count), Power10(count - 1);
      Words.MulAtLeast(p, 1);
      assert t * (10 * p) == (10 * t) * p;
      TimesMonotone(p, 10 * t, Tens(q, count - 1));
    }
  }

  lemma {:induction false} Power10Fifty(ten: nat)
    requires ten == 10
    ensures Power10(5 * ten) == 100_000_000_000_000_000_000_000_000_000_000_000_000_000_000_000_000
  {
    assert Power10(10) == 10_000_000_000;
    Power10Sum(ten, ten);
    Power10Sum(2 * ten, 2 * ten);
    Power10Sum(4 * ten, ten);
  }

  /** A 160-bit number has at most 50 digits. */
  lemma {:induction false} FiftyDigits(q: nat, count: nat)
    requires q < Weight(LIMBS) && Tens(q, count) > 0
    ensures count < 50
  {
    WeightFive();
    TensBound(q, count);
    var ten := 10;
    Power10Fifty(ten);
    if count >= 50 { Power10Grows(5 * ten, count); }
    Words.MulAtLeast(Power10(count), Tens(q, count));
  }

  function Reversed(s: string): string {
    if s == "" then "" else [s[|s| - 1]] + Reversed(s[..|s| - 1])
  }

  lemma {:induction false} DecimalStep(v: nat, w: nat, digit: nat)
    requires digit < 10 && v == 10 * w + digit
    ensures Text(Decimal(v)) == if w == 0 then [Digit(digit)] else Text(Decimal(w)) + [Digit(digit)]
  {
    if w > 0 {
      DecimalMore(v, w, digit);
      TextJoin(Decimal(w), [digit]);
      TextOne(digit);
    }
  }

  lemma {:induction false} DecimalMore(v: nat, w: nat, digit: nat)
    requires digit < 10 && v == 10 * w + digit && w > 0
    ensures Decimal(v) == Decimal(w) + [digit]
  {
    assert v / 10 == w && v % 10 == digit;
  }

  lemma {:induction false} TextOne(digit: nat)
    requires digit < 10
    ensures Text([digit]) == [Digit(digit)]
  {
    assert [digit][1..] == [];
  }

  /** What one more digit in the buffer means for the number being printed. */
  ghost predicate Printed(whole: nat, v: nat, more: bool, buffer: string) {
    && v <= Tens(whole, |buffer|)
    && (more <==> v > 0 || buffer == "")
    && Text(Decimal(whole)) == (if more then Text(Decimal(v)) else "") + Reversed(buffer)
  }

  lemma {:induction false} DigitPrinted(whole: nat, v: nat, w: nat, digit: nat, buffer: string)
    requires whole < Weight(LIMBS) && digit < 10 && v == 10 * w + digit && Printed(whole, v, true, buffer)
    ensures Printed(whole, w, w > 0, buffer + [Digit(digit)])
    ensures w > 0 ==> |buffer| + 1 < 50
  {
    DecimalStep(v, w, digit);
    var longer := buffer + [Digit(digit)];
    assert longer[..|buffer|] == buffer;
    if w > 0 { FiftyDigits(whole, |longer|); }
  }

  /** The digits of q, least significant first; the 64-character buffer is enough. */
  method Digits(q: array<Limb>, digits: array<char>) returns (count: nat)
    requires q.Length == LIMBS && digits.Length == BUFFER
    modifies q, digits
    ensures 0 < count <= 50 && Reversed(digits[..count]) == Text(Decimal(old(Value(q[..]))))
  {
    ghost var whole := Value(q[..]);
    ValueBound(q[..]);
    count := 0;
    var more := true;
    while more
      invariant count <= 50 && (more ==> count < 50) && (count == 0 ==> more)
      invariant Printed(whole, Value(q[..]), more, digits[..count])
      decreases more, Value(q[..])
    {
      ghost var before, done := Value(q[..]), digits[..count];
      var digit := DivideByTen(q);
      DigitPrinted(whole, before, Value(q[..]), digit, done);
      digits[count] := Digit(digit);
      count := count + 1;
      assert digits[..count] == done + [Digit(digit)];
      more := NonZero(q);
    }
  }

  /** One fractional digit: multiply by ten and count how often d can be taken away. */
  method NextDigit(r: array<Limb>, d: array<Limb>, ghost m: nat) returns (digit: nat)
    requires r.Length == d.Length == LIMBS && r != d && m > 0
    requires Value(r[..]) < Value(d[..]) && 10 * Value(d[..]) <= Weight(LIMBS)
    modifies r
    ensures digit < 10 && Value(r[..]) < Value(d[..])
    ensures FractionText(old(Value(r[..])), Value(d[..]), m) ==
      [Digit(digit)] + if Value(r[..]) == 0 then "" else FractionText(Value(r[..]), Value(d[..]), m - 1)
  {
    ghost var before, divisor, bytes := Value(r[..]), Value(d[..]), d[..];
    TimesTen(r);
    digit := 0;
    var order := Compare(r, d);
    while order >= 0
      invariant d[..] == bytes && digit + HowOften(Value(r[..]), divisor) == HowOften(10 * before, divisor)
      invariant Remains(Value(r[..]), divisor) == Remains(10 * before, divisor)
      invariant order >= 0 <==> Value(r[..]) >= divisor
      decreases Value(r[..])
    {
      Subtract(r, d);
      digit := digit + 1;
      order := Compare(r, d);
    }
    FractionTextStep(before, divisor, m, digit, Value(r[..]));
  }

  /** The digits in the buffer, last one first. */
  method PutReversed(out: Sink, digits: array<char>, length: nat) returns (ok: bool)
    requires out.Valid() && length <= digits.Length
    modifies out
    ensures out.Valid()
    ensures ok ==> out.text == old(out.text) + Reversed(digits[..length]) && out.failed == old(out.failed)
    ensures !ok ==> out.failed && |out.text| == out.room < |old(out.text) + Reversed(digits[..length])|
    ensures out.text <= old(out.text) + Reversed(digits[..length])
  {
    ghost var full := out.text + Reversed(digits[..length]);
    var count := length;
    while count > 0
      invariant count <= length && out.Valid() && out.failed == old(out.failed)
      invariant out.text + Reversed(digits[..count]) == full
    {
      assert digits[..count][..count - 1] == digits[..count - 1];
      count := count - 1;
      ok := out.Put(digits[count]);
      if !ok { return; }
    }
    assert digits[..0] == [];
    ok := true;
  }

  lemma {:induction false} PrefixOf(s: string, t: string)
    ensures s <= s + t && |s + t| == |s| + |t|
  {
  }

  method PutDigit(out: Sink, r: array<Limb>, d: array<Limb>, ghost m: nat) returns (ok: bool)
    requires out.Valid() && r.Length == d.Length == LIMBS && r != d && m > 0
    requires Value(r[..]) < Value(d[..]) && 10 * Value(d[..]) <= Weight(LIMBS)
    modifies out, r
    ensures out.Valid() && Value(r[..]) < Value(d[..])
    ensures !ok ==> out.failed && |out.text| == out.room && out.text == old(out.text)
    ensures ok ==> out.failed == old(out.failed)
    ensures ok ==>
      out.text + (if Value(r[..]) == 0 then "" else FractionText(Value(r[..]), Value(d[..]), m - 1))
        == old(out.text) + FractionText(old(Value(r[..])), Value(d[..]), m)
  {
    ghost var start := out.text;
    var digit := NextDigit(r, d, m);
    ghost var tail := if Value(r[..]) == 0 then "" else FractionText(Value(r[..]), Value(d[..]), m - 1);
    ok := out.Put(Digit(digit));
    assert start + ([Digit(digit)] + tail) == (start + [Digit(digit)]) + tail;
  }

  method PutFraction(out: Sink, r: array<Limb>, d: array<Limb>, places: nat) returns (ok: bool)
    requires out.Valid() && r.Length == d.Length == LIMBS && r != d
    requires Value(r[..]) < Value(d[..]) && 10 * Value(d[..]) <= Weight(LIMBS)
    modifies out, r
    ensures out.Valid()
    ensures var full := old(out.text) + FractionText(old(Value(r[..])), Value(d[..]), places);
      && out.text <= full
      && (ok ==> out.text == full && out.failed == old(out.failed))
      && (!ok ==> out.failed && |out.text| == out.room < |full|)
  {
    ghost var divisor, bytes := Value(d[..]), d[..];
    ghost var full := out.text + FractionText(Value(r[..]), divisor, places);
    var i := 0;
    while i < places
      invariant 0 <= i <= places && out.Valid() && out.failed == old(out.failed)
      invariant d[..] == bytes && Value(r[..]) < divisor
      invariant out.text + FractionText(Value(r[..]), divisor, places - i) == full
    {
      PrefixOf(out.text, FractionText(Value(r[..]), divisor, places - i));
      ok := PutDigit(out, r, d, places - i);
      if !ok { return; }
      var more := NonZero(r);
      if !more { return true; }
      i := i + 1;
    }
    ok := true;
  }

  lemma {:induction false} RatioFits(n1: Double, n2: Double, d1: Double, d2: Double)
    requires d1 > 0 && d2 > 0
    ensures 0 < d1 * d2 && 10 * (d1 * d2) <= Weight(LIMBS)
  {
    MulBound(d1, d2, WORD - 1);
    Words.MulAtLeast(d1, d2);
    WeightFive();
  }

  /** The stream holds the full text, or all that it has room for. */
  predicate Delivered(text: string, room: nat, full: string) {
    text <= full && |text| == if |full| <= room then |full| else room
  }

  method PutQuotient(out: Sink, q: array<Limb>, r: array<Limb>, d: array<Limb>, places: nat) returns (status: int)
    requires out.Valid() && q.Length == r.Length == d.Length == LIMBS && r != d && q != r && q != d
    requires Value(r[..]) < Value(d[..]) && 10 * Value(d[..]) <= Weight(LIMBS)
    modifies out, q, r
    ensures var full := old(out.text) + Rendered(old(Value(q[..])), old(Value(r[..])), Value(d[..]), places);
      && Delivered(out.text, out.room, full)
      && (status == 0 || status == -1) && (status == 0 <==> out.text == full && !old(out.failed))
  {
    ghost var whole, fraction := Text(Decimal(Value(q[..]))), FractionText(Value(r[..]), Value(d[..]), places);
    ghost var start, full := out.text, out.text + (whole + "." + fraction);
    assert full == start + whole + "." + fraction;
    var digits := new char[BUFFER];
    var count := Digits(q, digits);
    var ok := PutReversed(out, digits, count);
    if !ok { return -1; }
    ok := out.Put('.');
    if !ok { return -1; }
    ok := PutFraction(out, r, d, places);
    if !ok { return -1; }
    status := if out.failed then -1 else 0;
  }

  /** n1 * n2 / (d1 * d2) as it should appear, 80 places at most. */
  function RatioText(n: nat, d: nat): string
    requires d > 0
  {
    Rendered(n / d, n % d, d, PLACES)
  }

  lemma {:induction false} RatioTextOf(n: nat, d: nat, q: nat, r: nat)
    requires n == q * d + r && r < d
    ensures RatioText(n, d) == Rendered(q, r, d, PLACES)
  {
    Words.DivModUnique(n, d, q, r);
  }

  /** The ratio on the stream, exactly as RatioText says, or as much of it as the
      stream takes. */
  method JsonRatio(out: Sink?, n1: Double, n2: Double, d1: Double, d2: Double) returns (status: int)
    requires out != null ==> out.Valid()
    modifies if out == null then {} else {out}
    ensures out == null || d1 == 0 || d2 == 0 ==> status == -1 && (out != null ==> out.text == old(out.text))
    ensures out != null && d1 > 0 && d2 > 0 ==>
      d1 * d2 > 0 && status in {0, -1}
    ensures out != null && d1 > 0 && d2 > 0 && d1 * d2 > 0 ==>
      var full := old(out.text) + RatioText(n1 * n2, d1 * d2);
      Delivered(out.text, out.room, full) && (status == 0 <==> out.text == full && !old(out.failed))
  {
    if out == null || d1 == 0 || d2 == 0 { return -1; }
    RatioFits(n1, n2, d1, d2);
    var n := Product(n1, n2);
    var d := Product(d1, d2);
    var q, r := Divide(n, d);
    RatioTextOf(n1 * n2, d1 * d2, Value(q[..]), Value(r[..]));
    status := PutQuotient(out, q, r, d, PLACES);
  }
}
