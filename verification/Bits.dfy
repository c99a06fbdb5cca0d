/** Bits of the limb arrays: what `v[i/32] >> (i%32) & 1` reads and
    `v[i/32] |= 1 << (i%32)` writes. */
module Bits {
  import opened Limbs
  import opened Words

  function Shr(x: nat, k: nat): nat { if k == 0 then x else Shr(x / 2, k - 1) }

  function Shl(v: nat, t: nat): nat { if t == 0 then v else 2 * Shl(v, t - 1) }

  /** The low k bits of x are 0. */
  predicate LowClear(x: nat, k: nat) { k == 0 || (x % 2 == 0 && LowClear(x / 2, k - 1)) }

  // --------------------------------------------------------------------- one limb

  lemma {:induction false} ShlSum(v: nat, s: nat, t: nat)
    ensures Shl(v, s + t) == Shl(Shl(v, s), t)
  {
    if t > 0 { ShlSum(v, s, t - 1); }
  }

  lemma {:induction false} ShlPow2(v: nat, t: nat)
    ensures v == 1 ==> Shl(v, t) == Pow2(t)
  {
    if t > 0 { ShlPow2(v, t - 1); }
  }

  lemma {:induction false} ShlLimb(v: nat, t: nat)
    requires t == 32
    ensures Shl(v, t) == B * v
  {
    var e, s := 8, 16;
    ShlSum(v, e, e);
    ShlSum(v, s, s);
    ShlByte(v, e);
    ShlByte(Shl(v, e), e);
    ShlByte(Shl(v, s), e);
    ShlByte(Shl(Shl(v, s), e), e);
    ShlSum(Shl(v, s), e, e);
  }

  lemma {:induction false} ShlByte(v: nat, e: nat)
    requires e == 8
    ensures Shl(v, e) == 256 * v
  {
    assert Shl(v, e - 7) == 2 * v;
    assert Shl(v, e - 6) == 4 * v;
    assert Shl(v, e - 5) == 8 * v;
    assert Shl(v, e - 4) == 16 * v;
    assert Shl(v, e - 3) == 32 * v;
    assert Shl(v, e - 2) == 64 * v;
    assert Shl(v, e - 1) == 128 * v;
  }

  lemma {:induction false} Pow2Limb(t: nat)
    requires t == 32
    ensures Pow2(t) == B
  {
    ShlPow2(1, t);
    ShlLimb(1, t);
  }

  lemma {:induction false} ShrStep(x: nat, k: nat)
    ensures Shr(x, k) == 2 * Shr(x, k + 1) + Shr(x, k) % 2
  {
    if k > 0 { ShrStep(x / 2, k - 1); }
  }

  lemma {:induction false} ShrSmall(x: nat, k: nat, n: nat)
    requires x < Pow2(n) && k <= n
    ensures Shr(x, k) < Pow2(n - k)
  {
    if k > 0 { ShrSmall(x / 2, k - 1, n - 1); }
  }

  lemma {:induction false} LowClearStep(x: nat, k: nat)
    requires LowClear(x, k + 1)
    ensures LowClear(x, k) && Shr(x, k) % 2 == 0
  {
    if k > 0 { LowClearStep(x / 2, k - 1); }
  }

  lemma {:induction false} ZeroClear(k: nat)
    ensures LowClear(0, k) && Shr(0, k) == 0
  {
    if k > 0 { ZeroClear(k - 1); }
  }

  /** Setting bit k of an n-bit number whose bits up to k are 0. */
  lemma {:induction false} LimbSet(x: nat, k: nat, n: nat)
    requires k < n && x < Pow2(n) && LowClear(x, k + 1)
    ensures x + Pow2(k) < Pow2(n) && Shr(x + Pow2(k), k) == Shr(x, k) + 1 && LowClear(x + Pow2(k), k)
  {
    if k > 0 {
      LimbSet(x / 2, k - 1, n - 1);
      assert (x + Pow2(k)) / 2 == x / 2 + Pow2(k - 1);
    }
  }

  // ----------------------------------------------------------------- all the limbs

  /** The number made of bits k and up. */
  function Above(s: seq<Limb>, k: nat): nat {
    if s == [] then 0
    else if k < 32 then Shr(s[0], k) + Shl(Value(s[1..]), 32 - k)
    else Above(s[1..], k - 32)
  }

  function BitAt(s: seq<Limb>, k: nat): (bit: nat)
    ensures bit <= 1
  {
    if s == [] then 0 else if k < 32 then Shr(s[0], k) % 2 else BitAt(s[1..], k - 32)
  }

  /** All bits below k are 0. */
  predicate Clear(s: seq<Limb>, k: nat) {
    s == [] || (if k < 32 then LowClear(s[0], k) else s[0] == 0 && Clear(s[1..], k - 32))
  }

  lemma {:induction false} AboveAll(s: seq<Limb>, k: nat)
    requires k == 0
    ensures Above(s, k) == Value(s)
  {
    if s != [] { ShlLimb(Value(s[1..]), 32 - k); }
  }

  lemma {:induction false} AboveNone(s: seq<Limb>, k: nat)
    requires k == 32 * |s|
    ensures Above(s, k) == 0
  {
    if s != [] { AboveNone(s[1..], k - 32); }
  }

  lemma {:induction false} AboveStep(s: seq<Limb>, k: nat)
    ensures Above(s, k) == 2 * Above(s, k + 1) + BitAt(s, k)
  {
    if s != [] {
      if k < 31 {
        ShrStep(s[0], k);
      } else if k == 31 {
        TopBit(s[0], k);
        AboveAll(s[1..], k - 31);
        assert Shl(Value(s[1..]), 32 - k) == 2 * Shl(Value(s[1..]), 31 - k);
      } else {
        AboveStep(s[1..], k - 32);
      }
    }
  }

  lemma {:induction false} TopBit(x: Limb, t: nat)
    requires t == 31
    ensures Shr(x, t) <= 1
  {
    Pow2Limb(t + 1);
    ShrSmall(x, t, t + 1);
  }

  lemma {:induction false} BitInLimb(s: seq<Limb>, k: nat)
    requires k < 32 * |s|
    ensures BitAt(s, k) == Shr(s[k / 32], k % 32) % 2
  {
    if k >= 32 {
      BitInLimb(s[1..], k - 32);
      assert (k - 32) / 32 == k / 32 - 1 && (k - 32) % 32 == k % 32;
    }
  }

  lemma {:induction false} ClearBit(s: seq<Limb>, k: nat)
    requires Clear(s, k + 1)
    ensures BitAt(s, k) == 0 && Clear(s, k)
  {
    if s != [] {
      if k < 31 {
        LowClearStep(s[0], k);
      } else if k == 31 {
        ZeroClear(k);
      } else {
        ClearBit(s[1..], k - 32);
      }
    }
  }

  lemma {:induction false} ZeroesClear(s: seq<Limb>, k: nat)
    requires forall i :: 0 <= i < |s| ==> s[i] == 0
    ensures Clear(s, k) && Above(s, k) == 0
  {
    if s != [] {
      ZeroClear(k);
      ValueZero(s[1..]);
      if k >= 32 { ZeroesClear(s[1..], k - 32); } else { ShlZero(32 - k); }
    }
  }

  lemma {:induction false} ShlZero(t: nat)
    ensures Shl(0, t) == 0
  {
    if t > 0 { ShlZero(t - 1); }
  }

  /** Setting bit k of a number whose bits up to k are 0. */
  lemma {:induction false} BitSet(s: seq<Limb>, k: nat)
    requires k < 32 * |s| && Clear(s, k + 1)
    ensures s[k / 32] + Pow2(k % 32) < B && Shr(s[k / 32], k % 32) % 2 == 0
    ensures var r := s[k / 32 := s[k / 32] + Pow2(k % 32)];
      Above(r, k) == 2 * Above(s, k + 1) + 1 && Clear(r, k)
  {
    BitInLimb(s, k);
    ClearBit(s, k);
    AboveStep(s, k);
    if k < 32 {
      LowBitSet(s, k, 32);
    } else {
      assert (k - 32) / 32 == k / 32 - 1 && (k - 32) % 32 == k % 32;
      BitSet(s[1..], k - 32);
      var x: Limb := s[k / 32] + Pow2(k % 32);
      assert s[k / 32 := x][1..] == s[1..][k / 32 - 1 := x];
    }
  }

  lemma {:induction false} LowBitSet(s: seq<Limb>, k: nat, n: nat)
    requires s != [] && k < n == 32 && Clear(s, k + 1)
    ensures s[0] + Pow2(k) < B
    ensures var r := s[0 := s[0] + Pow2(k)]; Above(r, k) == Above(s, k) + 1 && Clear(r, k)
  {
    Pow2Limb(n);
    if k == 31 { ZeroClear(n); }
    LimbSet(s[0], k, n);
    assert s[0 := s[0] + Pow2(k)][1..] == s[1..];
  }
}
