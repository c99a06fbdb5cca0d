/** The five 32-bit limbs of benchmarks/bench_ratio.c, least significant first, and
    the in-place operations on them. */
module Limbs {

  const B := 0x1_0000_0000
  const WORD := 0x1_0000_0000_0000_0000
  const LIMBS := 5

  type Limb = x: nat | x < B

  // ------------------------------------------------------------------------ value

  function Value(s: seq<Limb>): nat {
    if s == [] then 0 else s[0] + B * Value(s[1..])
  }

  /** B to the power n. */
  function Weight(n: nat): nat { if n == 0 then 1 else B * Weight(n - 1) }

  lemma {:induction false} ValueBound(s: seq<Limb>)
    ensures Value(s) < Weight(|s|)
  {
    if s != [] { ValueBound(s[1..]); }
  }

  lemma {:induction false} ValueZero(s: seq<Limb>)
    ensures Value(s) == 0 <==> forall i :: 0 <= i < |s| ==> s[i] == 0
  {
    if s != [] {
      ValueZero(s[1..]);
      assert forall i :: 1 <= i < |s| ==> s[i] == s[1..][i - 1];
    }
  }

  lemma {:induction false} WeightFive()
    ensures Weight(5) == 0x1_0000_0000_0000_0000_0000_0000_0000_0000_0000_0000
  {
    assert Weight(1) == B;
    assert Weight(2) == B * B;
    assert Weight(3) == B * B * B;
    assert Weight(4) == B * B * B * B;
  }

  // ------------------------------------------------------------------- comparison

  /** The most significant difference decides. */
  lemma {:induction false} TopDecides(a: seq<Limb>, b: seq<Limb>, i: nat)
    requires |a| == |b| && i < |a| && a[i] > b[i]
    requires forall j :: i < j < |a| ==> a[j] == b[j]
    ensures Value(a) > Value(b)
  {
    if i == 0 {
      assert a[1..] == b[1..];
    } else {
      TopDecides(a[1..], b[1..], i - 1);
    }
  }

  method Compare(a: array<Limb>, b: array<Limb>) returns (order: int)
    requires a.Length == b.Length == LIMBS
    ensures order == 1 <==> Value(a[..]) > Value(b[..])
    ensures order == 0 <==> Value(a[..]) == Value(b[..])
    ensures order == -1 <==> Value(a[..]) < Value(b[..])
  {
    var k := LIMBS;
    while k > 0
      invariant 0 <= k <= LIMBS
      invariant forall j :: k <= j < LIMBS ==> a[j] == b[j]
    {
      var i := k - 1;
      if a[i] != b[i] {
        if a[i] > b[i] {
          TopDecides(a[..], b[..], i);
          return 1;
        } else {
          TopDecides(b[..], a[..], i);
          return -1;
        }
      }
      k := k - 1;
    }
    assert a[..] == b[..];
    return 0;
  }

  method NonZero(a: array<Limb>) returns (some: bool)
    requires a.Length == LIMBS
    ensures some <==> Value(a[..]) != 0
  {
    ValueZero(a[..]);
    for i := 0 to LIMBS
      invariant forall j :: 0 <= j < i ==> a[..][j] == 0
    {
      if a[i] != 0 {
        assert a[..][i] != 0;
        return true;
      }
    }
    return false;
  }

  // ------------------------------------------------------------------ subtraction

  function Borrow(x: nat, y: nat): nat { if x < y then 1 else 0 }

  /** Limbwise difference with a borrow coming in. */
  function Minus(a: seq<Limb>, b: seq<Limb>, borrow: nat): (r: seq<Limb>)
    requires |a| == |b| && borrow <= 1
    ensures |r| == |a|
  {
    if a == [] then []
    else [(a[0] - b[0] - borrow) % B] + Minus(a[1..], b[1..], Borrow(a[0], b[0] + borrow))
  }

  lemma {:induction false} LimbDifference(x: Limb, y: Limb, borrow: nat)
    requires borrow <= 1
    ensures (x - y - borrow) % B == x - y - borrow + B * Borrow(x, y + borrow)
  {
  }

  lemma {:induction false} MinusIsDifference(a: seq<Limb>, b: seq<Limb>, borrow: nat)
    requires |a| == |b| && borrow <= 1
    ensures Value(a) >= Value(b) + borrow ==> Value(Minus(a, b, borrow)) == Value(a) - Value(b) - borrow
    ensures Value(a) < Value(b) + borrow ==>
      Value(Minus(a, b, borrow)) == Value(a) + Weight(|a|) - Value(b) - borrow
  {
    if a != [] {
      LimbDifference(a[0], b[0], borrow);
      MinusIsDifference(a[1..], b[1..], Borrow(a[0], b[0] + borrow));
    }
  }

  lemma {:induction false} MinusStep(a: seq<Limb>, b: seq<Limb>, i: nat, borrow: nat)
    requires |a| == |b| && i < |a| && borrow <= 1
    ensures Minus(a[i..], b[i..], borrow) ==
      [(a[i] - b[i] - borrow) % B] + Minus(a[i + 1..], b[i + 1..], Borrow(a[i], b[i] + borrow))
  {
    assert a[i..][1..] == a[i + 1..] && b[i..][1..] == b[i + 1..];
  }

  lemma {:induction false} Append<T>(s: seq<T>, x: T, rest: seq<T>)
    ensures s + ([x] + rest) == (s + [x]) + rest
  {
  }

  /** Unsigned 64-bit subtraction. */
  function Wrapped(x: nat, y: nat): int { if x < y then x - y + WORD else x - y }

  /** The wrapped difference keeps its low limb. */
  lemma {:induction false} WordThenLimb(x: Limb, y: Limb, borrow: nat)
    requires borrow <= 1
    ensures Wrapped(x, y + borrow) % B == (x - y - borrow) % B
  {
  }

  method SubtractLimbs(a: array<Limb>, b: array<Limb>)
    requires a.Length == b.Length == LIMBS && a != b
    modifies a
    ensures a[..] == Minus(old(a[..]), b[..], 0)
  {
    ghost var was, less := a[..], b[..];
    var borrow: nat := 0;
    for i := 0 to LIMBS
      invariant borrow <= 1 && b[..] == less
      invariant a[i..] == was[i..]
      invariant a[..i] + Minus(was[i..], less[i..], borrow) == Minus(was, less, 0)
    {
      borrow := SubtractLimb(a, b, i, borrow, was);
    }
    assert was[LIMBS..] == [] && a[..LIMBS] == a[..];
  }

  /** One limb of the difference. */
  method SubtractLimb(a: array<Limb>, b: array<Limb>, i: nat, borrow: nat, ghost was: seq<Limb>) returns (next: nat)
    requires a.Length == b.Length == |was| == LIMBS && a != b && i < LIMBS && borrow <= 1
    requires a[i..] == was[i..]
    modifies a
    ensures next <= 1 && a[i + 1..] == was[i + 1..]
    ensures a[..i + 1] + Minus(was[i + 1..], b[i + 1..], next)
         == old(a[..i]) + Minus(was[i..], b[i..], borrow)
  {
    assert a[i] == a[i..][0] == was[i];
    MinusStep(was, b[..], i, borrow);
    WordThenLimb(a[i], b[i], borrow);
    var x, y := a[i], b[i] + borrow;
    ghost var done := a[..i];
    a[i] := Wrapped(x, y) % B;
    next := Borrow(x, y);
    Append(done, a[i], Minus(was[i + 1..], b[i + 1..], next));
    assert a[..i + 1] == done + [a[i]];
  }

  method Subtract(a: array<Limb>, b: array<Limb>)
    requires a.Length == b.Length == LIMBS && a != b && Value(a[..]) >= Value(b[..])
    modifies a
    ensures Value(a[..]) == old(Value(a[..])) - Value(b[..])
  {
    MinusIsDifference(a[..], b[..], 0);
    SubtractLimbs(a, b);
  }

  // ----------------------------------------------------- doubling and times ten

  /** Limbwise a * m + carry. */
  function Times(a: seq<Limb>, m: nat, carry: nat): (r: seq<Limb>)
    ensures |r| == |a|
  {
    if a == [] then [] else [(a[0] * m + carry) % B] + Times(a[1..], m, (a[0] * m + carry) / B)
  }

  lemma {:induction false} TimesStep(a: seq<Limb>, m: nat, i: nat, carry: nat)
    requires i < |a|
    ensures Times(a[i..], m, carry) == [(a[i] * m + carry) % B] + Times(a[i + 1..], m, (a[i] * m + carry) / B)
  {
    assert a[i..][1..] == a[i + 1..];
  }

  lemma {:induction false} TimesIsProduct(a: seq<Limb>, m: nat, carry: nat)
    requires 1 <= m <= 10 && Value(a) * m + carry < Weight(|a|)
    ensures Value(Times(a, m, carry)) == Value(a) * m + carry
  {
    if a != [] {
      var x := a[0] * m + carry;
      assert x == x / B * B + x % B;
      Regroup(Value(a[1..]), m, x, a[0], carry, Weight(|a| - 1));
      TimesIsProduct(a[1..], m, x / B);
    }
  }

  lemma {:induction false} Regroup(v: nat, m: nat, x: nat, low: nat, carry: nat, w: nat)
    requires x == low * m + carry && (low + B * v) * m + carry < B * w
    ensures (low + B * v) * m + carry == x % B + B * (v * m + x / B)
    ensures v * m + x / B < w
  {
    assert (low + B * v) * m == low * m + B * (v * m);
  }

  /** The shifted-out bit leaves room for the one coming in, so | adds. */
  lemma {:induction false} Doubled(x: Limb, carry: nat)
    requires carry <= 1
    ensures (x * 2) % B + carry == (x * 2 + carry) % B && (x * 2) % B + carry < B
    ensures x / 0x8000_0000 == (x * 2 + carry) / B <= 1
  {
  }

  lemma {:induction false} ShiftStep(a: seq<Limb>, m: nat, i: nat, carry: nat)
    requires i < |a| && carry <= 1 && m == 2
    ensures (a[i] * 2) % B + carry < B && a[i] / 0x8000_0000 <= 1
    ensures Times(a[i..], m, carry) == [(a[i] * 2) % B + carry] + Times(a[i + 1..], m, a[i] / 0x8000_0000)
  {
    TimesStep(a, m, i, carry);
    Doubled(a[i], carry);
  }

  method ShiftLimbs(a: array<Limb>, bit: nat, ghost m: nat)
    requires a.Length == LIMBS && bit <= 1 && m == 2
    modifies a
    ensures a[..] == Times(old(a[..]), m, bit)
  {
    ghost var was := a[..];
    var carry := bit;
    for i := 0 to LIMBS
      invariant carry <= 1
      invariant a[i..] == was[i..]
      invariant a[..i] + Times(was[i..], m, carry) == Times(was, m, bit)
    {
      assert a[i] == a[i..][0] == was[i];
      ShiftStep(was, m, i, carry);
      ghost var done := a[..i];
      var next := a[i] / 0x8000_0000;
      a[i] := (a[i] * 2) % B + carry;
      carry := next;
      Append(done, a[i], Times(was[i + 1..], m, carry));
      assert a[..i + 1] == done + [a[i]];
    }
    assert was[LIMBS..] == [] && a[..LIMBS] == a[..];
    assert Times(was[LIMBS..], m, carry) == [];
  }

  method Shift(a: array<Limb>, bit: nat)
    requires a.Length == LIMBS && bit <= 1 && Value(a[..]) * 2 + bit < Weight(LIMBS)
    modifies a
    ensures Value(a[..]) == old(Value(a[..])) * 2 + bit
  {
    ghost var m := 2;
    TimesIsProduct(a[..], m, bit);
    ShiftLimbs(a, bit, m);
  }

  lemma {:induction false} TenStep(a: seq<Limb>, m: nat, i: nat, c: nat)
    requires i < |a| && c <= 9 && m == 10
    ensures a[i] * 10 + c < WORD && (a[i] * 10 + c) / B <= 9
    ensures Times(a[i..], m, c) == [(a[i] * 10 + c) % B] + Times(a[i + 1..], m, (a[i] * 10 + c) / B)
  {
    TimesStep(a, m, i, c);
  }

  method TimesTenLimbs(a: array<Limb>, ghost m: nat)
    requires a.Length == LIMBS && m == 10
    modifies a
    ensures a[..] == Times(old(a[..]), m, 0)
  {
    ghost var was := a[..];
    var c: nat := 0;
    for i := 0 to LIMBS
      invariant c <= 9
      invariant a[i..] == was[i..]
      invariant a[..i] + Times(was[i..], m, c) == Times(was, m, 0)
    {
      assert a[i] == a[i..][0] == was[i];
      TenStep(was, m, i, c);
      ghost var done := a[..i];
      var x := a[i] * 10 + c;
      a[i] := x % B;
      c := x / B;
      Append(done, a[i], Times(was[i + 1..], m, c));
      assert a[..i + 1] == done + [a[i]];
    }
    assert was[LIMBS..] == [] && a[..LIMBS] == a[..];
    assert Times(was[LIMBS..], m, c) == [];
  }

  method TimesTen(a: array<Limb>)
    requires a.Length == LIMBS && Value(a[..]) * 10 < Weight(LIMBS)
    modifies a
    ensures Value(a[..]) == old(Value(a[..])) * 10
  {
    ghost var m := 10;
    TimesIsProduct(a[..], m, 0);
    TimesTenLimbs(a, m);
  }

  // ------------------------------------------------------------------ digit by digit

  function Tenth(a: seq<Limb>): (r: (seq<Limb>, nat))
    ensures |r.0| == |a| && r.1 < 10
    ensures Value(a) == 10 * Value(r.0) + r.1
  {
    if a == [] then ([], 0)
    else
      var (high, rem) := Tenth(a[1..]);
      var v := rem * B + a[0];
      var q: seq<Limb> := [v / 10] + high;
      assert q[1..] == high;
      (q, v % 10)
  }

  lemma {:induction false} TenthStep(a: seq<Limb>, i: nat)
    requires i < |a|
    ensures var (high, rem) := Tenth(a[i + 1..]);
      Tenth(a[i..]) == ([(rem * B + a[i]) / 10] + high, (rem * B + a[i]) % 10)
  {
    assert a[i..][1..] == a[i + 1..];
  }

  method DivideByTen(a: array<Limb>) returns (digit: nat)
    requires a.Length == LIMBS
    modifies a
    ensures digit < 10 && old(Value(a[..])) == 10 * Value(a[..]) + digit
  {
    ghost var was := a[..];
    digit := 0;
    var k := LIMBS;
    while k > 0
      invariant 0 <= k <= LIMBS
      invariant a[..k] == was[..k]
      invariant (a[k..], digit) == Tenth(was[k..])
    {
      var i := k - 1;
      assert a[i] == was[..k][i];
      TenthStep(was, i);
      ghost var high := a[k..];
      var v := digit * B + a[i];
      a[i] := v / 10;
      digit := v % 10;
      k := k - 1;
      assert a[k..] == [a[k]] + high;
    }
    assert a[0..] == a[..] && was[0..] == was;
  }
}
