/** The checksums of src/elite_format.c: CRC-64 of a committed payload and the
    CRC-32 of the immutable header.

    Both are one shift register with feedback.  A register is the sequence of its
    bits in shifting order, the bit that falls out next first: for the left-shifting
    CRC-64 that is most significant first, for the right-shifting CRC-32 least
    significant first.  Shifts are then slices and exclusive-or is pointwise.  */
module Crc {

  type Bits = seq<bool>
  type Byte = b: Bits | |b| == 8 witness Zeros(8)
  type Word64 = w: Bits | |w| == 64 witness Zeros(64)
  type Word32 = w: Bits | |w| == 32 witness Zeros(32)

  function Zeros(k: nat): (z: Bits)
    ensures |z| == k && forall i :: 0 <= i < k ==> !z[i]
  {
    seq(k, i => false)
  }

  function Xor(s: Bits, t: Bits): (u: Bits)
    requires |s| == |t|
    ensures |u| == |s| && forall i :: 0 <= i < |s| ==> u[i] == (s[i] != t[i])
  {
    seq(|s|, i requires 0 <= i < |s| => s[i] != t[i])
  }

  /** A constant in hexadecimal, most significant bit first. */
  function Hex(digits: seq<nat>): (w: Bits)
    ensures |w| == 4 * |digits|
  {
    seq(4 * |digits|, i requires 0 <= i < 4 * |digits| => NibbleBit(digits[i / 4], i % 4))
  }

  function NibbleBit(d: nat, i: nat): bool {
    if i == 0 then d / 8 % 2 == 1 else if i == 1 then d / 4 % 2 == 1
    else if i == 2 then d / 2 % 2 == 1 else d % 2 == 1
  }

  // ------------------------------------------------------------------ the register

  predicate Fits(g: Bits, w: Bits) { |g| == |w| > 0 }

  function ShiftOut(w: Bits): (r: Bits)
    requires |w| > 0
    ensures |r| == |w|
  {
    w[1..] + [false]
  }

  /** One turn: shift, and reduce by the polynomial g if a bit fell out. */
  function Turn(g: Bits, w: Bits): (r: Bits)
    requires Fits(g, w)
    ensures |r| == |w|
  {
    Xor(ShiftOut(w), if w[0] then g else Zeros(|w|))
  }

  function Turns(g: Bits, w: Bits, k: nat): (r: Bits)
    requires Fits(g, w)
    ensures |r| == |w|
    decreases k
  {
    if k == 0 then w else Turns(g, Turn(g, w), k - 1)
  }

  /** Bits at the end that falls out first, zeros behind them. */
  function Padded(bits: Bits, n: nat): (w: Bits)
    requires |bits| <= n
    ensures |w| == n
  {
    bits + Zeros(n - |bits|)
  }

  /** The byte-wise checksum loop: add a byte where bits fall out, turn eight times. */
  function CrcFrom(g: Bits, r: Bits, bytes: seq<Byte>): (crc: Bits)
    requires Fits(g, r) && |r| >= 8
    ensures |crc| == |r|
    decreases |bytes|
  {
    if |bytes| == 0 then r
    else Turns(g, Xor(CrcFrom(g, r, bytes[..|bytes| - 1]), Padded(bytes[|bytes| - 1], |r|)), 8)
  }

  method TurnLoop(g: Bits, w: Bits, k: nat) returns (crc: Bits)
    requires Fits(g, w)
    ensures |crc| == |w| && crc == Turns(g, w, k)
  {
    crc := w;
    for b := 0 to k
      invariant |crc| == |w| && Turns(g, w, k) == Turns(g, crc, k - b)
    {
      crc := Turn(g, crc);
    }
  }

  method Absorb(g: Bits, ghost r: Bits, ghost bytes: seq<Byte>, ghost i: nat, crc: Bits, p: Byte)
    returns (next: Bits)
    requires Fits(g, r) && |r| >= 8
    requires i < |bytes| && bytes[i] == p && crc == CrcFrom(g, r, bytes[..i])
    ensures next == CrcFrom(g, r, bytes[..i + 1])
  {
    assert bytes[..i + 1][..i] == bytes[..i];
    next := TurnLoop(g, Xor(crc, Padded(p, |crc|)), 8);
  }

  method RunCrc(g: Bits, start: Bits, bytes: seq<Byte>) returns (crc: Bits)
    requires Fits(g, start) && |start| >= 8
    ensures crc == CrcFrom(g, start, bytes)
  {
    crc := start;
    for i := 0 to |bytes|
      invariant crc == CrcFrom(g, start, bytes[..i])
    {
      crc := Absorb(g, start, bytes, i, crc, bytes[i]);
    }
    assert bytes[..|bytes|] == bytes;
  }

  // ---------------------------------------------------------------- bit stream

  /** The register after shifting in a bit stream. */
  function Feed(g: Bits, r: Bits, bits: Bits): (w: Bits)
    requires Fits(g, r)
    ensures |w| == |r|
    decreases |bits|
  {
    if |bits| == 0 then r else Feed(g, Turn(g, Xor(r, Padded([bits[0]], |r|))), bits[1..])
  }

  function Stream(bytes: seq<Byte>): (s: Bits)
    ensures |s| == 8 * |bytes|
  {
    if |bytes| == 0 then [] else Stream(bytes[..|bytes| - 1]) + bytes[|bytes| - 1]
  }

  lemma {:induction false} StreamAt(bytes: seq<Byte>, i: nat, j: nat)
    requires i < |bytes| && j < 8
    ensures Stream(bytes)[8 * i + j] == bytes[i][j]
    decreases |bytes|
  {
    if i < |bytes| - 1 { StreamAt(bytes[..|bytes| - 1], i, j); }
  }

  lemma {:induction false} TurnAt(g: Bits, w: Bits, i: nat)
    requires Fits(g, w) && i < |w|
    ensures Turn(g, w)[i] == ((if i < |w| - 1 then w[i + 1] else false) != (w[0] && g[i]))
  {
    assert ShiftOut(w)[i] == if i < |w| - 1 then w[i + 1] else false;
  }

  /** A turn is linear over GF(2). */
  lemma {:induction false} TurnLinear(g: Bits, a: Bits, b: Bits)
    requires Fits(g, a) && Fits(g, b)
    ensures Turn(g, Xor(a, b)) == Xor(Turn(g, a), Turn(g, b))
  {
    forall i | 0 <= i < |a| ensures Turn(g, Xor(a, b))[i] == Xor(Turn(g, a), Turn(g, b))[i] {
      TurnAt(g, a, i);
      TurnAt(g, b, i);
      TurnAt(g, Xor(a, b), i);
    }
  }

  /** The polynomial has its last coefficient. */
  predicate Odd(g: Bits) { |g| > 0 && g[|g| - 1] }

  /** When the polynomial is odd the last bit after a turn is the bit shifted out, so
      no two registers turn into one. */
  lemma {:induction false} TurnInjective(g: Bits, a: Bits, b: Bits)
    requires Odd(g) && Fits(g, a) && Fits(g, b) && Turn(g, a) == Turn(g, b)
    ensures a == b
  {
    var n := |g|;
    TurnAt(g, a, n - 1);
    TurnAt(g, b, n - 1);
    forall i | 1 <= i < n ensures a[i] == b[i] {
      TurnAt(g, a, i - 1);
      TurnAt(g, b, i - 1);
    }
  }

  lemma {:induction false} TurnsInjective(g: Bits, a: Bits, b: Bits, k: nat)
    requires Odd(g) && Fits(g, a) && Fits(g, b) && Turns(g, a, k) == Turns(g, b, k)
    ensures a == b
    decreases k
  {
    if k > 0 {
      TurnsInjective(g, Turn(g, a), Turn(g, b), k - 1);
      TurnInjective(g, a, b);
    }
  }

  lemma {:induction false} TurnsLinear(g: Bits, a: Bits, b: Bits, k: nat)
    requires Fits(g, a) && Fits(g, b)
    ensures Turns(g, Xor(a, b), k) == Xor(Turns(g, a, k), Turns(g, b, k))
    decreases k
  {
    if k > 0 {
      TurnLinear(g, a, b);
      TurnsLinear(g, Turn(g, a), Turn(g, b), k - 1);
    }
  }

  lemma {:induction false} TurnZero(g: Bits, n: nat)
    requires n == |g| > 0
    ensures Turn(g, Zeros(n)) == Zeros(n)
  {
  }

  lemma {:induction false} TurnsZero(g: Bits, n: nat, k: nat)
    requires n == |g| > 0
    ensures Turns(g, Zeros(n), k) == Zeros(n)
  {
    if k > 0 {
      TurnZero(g, n);
      TurnsZero(g, n, k - 1);
    }
  }

  lemma {:induction false} FeedConcat(g: Bits, r: Bits, s: Bits, t: Bits)
    requires Fits(g, r)
    ensures Feed(g, r, s + t) == Feed(g, Feed(g, r, s), t)
    decreases |s|
  {
    if |s| == 0 {
      assert s + t == t;
    } else {
      assert (s + t)[1..] == s[1..] + t;
      FeedConcat(g, Turn(g, Xor(r, Padded([s[0]], |r|))), s[1..], t);
    }
  }

  lemma {:induction false} XorPairs(a: Bits, b: Bits, x: bool, y: bool)
    requires |a| == |b| > 0
    ensures Xor(Xor(a, b), Padded([x != y], |a|)) == Xor(Xor(a, Padded([x], |a|)), Xor(b, Padded([y], |a|)))
  {
  }

  /** The checksum is linear over GF(2) in register and stream together. */
  lemma {:induction false} FeedLinear(g: Bits, a: Bits, b: Bits, s: Bits, t: Bits)
    requires Fits(g, a) && Fits(g, b) && |s| == |t|
    ensures Feed(g, Xor(a, b), Xor(s, t)) == Xor(Feed(g, a, s), Feed(g, b, t))
    decreases |s|
  {
    if |s| > 0 {
      var x, y := Xor(a, Padded([s[0]], |a|)), Xor(b, Padded([t[0]], |a|));
      XorPairs(a, b, s[0], t[0]);
      TurnLinear(g, x, y);
      assert Xor(s, t)[1..] == Xor(s[1..], t[1..]);
      FeedLinear(g, Turn(g, x), Turn(g, y), s[1..], t[1..]);
    }
  }

  lemma {:induction false} XorCancels(a: Bits, b: Bits, c: Bits)
    requires |a| == |b| == |c| && Xor(a, c) == Xor(b, c)
    ensures a == b
  {
    forall i | 0 <= i < |a| ensures a[i] == b[i] { assert Xor(a, c)[i] == Xor(b, c)[i]; }
  }

  lemma {:induction false} FeedInjective(g: Bits, a: Bits, b: Bits, bits: Bits)
    requires Odd(g) && Fits(g, a) && Fits(g, b)
    requires Feed(g, a, bits) == Feed(g, b, bits)
    ensures a == b
    decreases |bits|
  {
    if |bits| > 0 {
      var c := Padded([bits[0]], |a|);
      FeedInjective(g, Turn(g, Xor(a, c)), Turn(g, Xor(b, c)), bits[1..]);
      TurnInjective(g, Xor(a, c), Xor(b, c));
      XorCancels(a, b, c);
    }
  }

  function BelowTop(bits: Bits, n: nat): (w: Bits)
    requires 1 <= |bits| <= n
    ensures |w| == n
  {
    [false] + bits[1..] + Zeros(n - |bits|)
  }

  lemma {:induction false} TurnBelowTop(g: Bits, bits: Bits, n: nat)
    requires 1 <= |bits| <= n == |g|
    ensures Turn(g, BelowTop(bits, n)) == Padded(bits[1..], n)
  {
    forall i | 0 <= i < n ensures Turn(g, BelowTop(bits, n))[i] == Padded(bits[1..], n)[i] {
      TurnAt(g, BelowTop(bits, n), i);
    }
  }

  lemma {:induction false} SplitPadded(r: Bits, bits: Bits)
    requires 1 <= |bits| <= |r|
    ensures Xor(r, Padded(bits, |r|)) == Xor(Xor(r, Padded([bits[0]], |r|)), BelowTop(bits, |r|))
  {
  }

  /** Shifting in no more bits than the register has is turning the register they are
      added to. */
  lemma {:induction false} FeedIsTurns(g: Bits, r: Bits, bits: Bits)
    requires Fits(g, r) && |bits| <= |r|
    ensures Feed(g, r, bits) == Turns(g, Xor(r, Padded(bits, |r|)), |bits|)
    decreases |bits|
  {
    if |bits| == 0 {
      assert Xor(r, Padded(bits, |r|)) == r;
    } else {
      var x := Xor(r, Padded([bits[0]], |r|));
      FeedIsTurns(g, Turn(g, x), bits[1..]);
      TurnLinear(g, x, BelowTop(bits, |r|));
      TurnBelowTop(g, bits, |r|);
      SplitPadded(r, bits);
    }
  }

  /** The byte-wise checksum is the bit-wise one. */
  lemma {:induction false} CrcIsFeed(g: Bits, r: Bits, bytes: seq<Byte>)
    requires Fits(g, r) && |r| >= 8
    ensures CrcFrom(g, r, bytes) == Feed(g, r, Stream(bytes))
    decreases |bytes|
  {
    if |bytes| > 0 {
      var front, p := bytes[..|bytes| - 1], bytes[|bytes| - 1];
      CrcIsFeed(g, r, front);
      FeedIsTurns(g, CrcFrom(g, r, front), p);
      FeedConcat(g, r, Stream(front), p);
    }
  }

  // ------------------------------------------------------------ burst detection

  /** An error stream with a set bit, all of them in [from, from + width). */
  ghost predicate Burst(e: Bits, from: nat, width: nat) {
    && (exists i :: 0 <= i < |e| && e[i])
    && (forall i :: 0 <= i < |e| && e[i] ==> from <= i < from + width)
  }

  lemma {:induction false} FeedZeros(g: Bits, n: nat, bits: Bits)
    requires n == |g| > 0 && forall i :: 0 <= i < |bits| ==> !bits[i]
    ensures Feed(g, Zeros(n), bits) == Zeros(n)
    decreases |bits|
  {
    if |bits| > 0 {
      assert Xor(Zeros(n), Padded([bits[0]], n)) == Zeros(n);
      TurnZero(g, n);
      FeedZeros(g, n, bits[1..]);
    }
  }

  lemma {:induction false} ShortResidue(g: Bits, n: nat, body: Bits, i: nat)
    requires Odd(g) && n == |g| && |body| <= n && i < |body| && body[i]
    ensures Feed(g, Zeros(n), body) != Zeros(n)
  {
    FeedIsTurns(g, Zeros(n), body);
    var w := Xor(Zeros(n), Padded(body, n));
    assert w[i];
    if Turns(g, w, |body|) == Zeros(n) {
      TurnsZero(g, n, |body|);
      TurnsInjective(g, w, Zeros(n), |body|);
    }
  }

  lemma {:induction false} TailResidue(g: Bits, n: nat, r: Bits, tail: Bits)
    requires Odd(g) && n == |g| == |r| && r != Zeros(n)
    requires forall i :: 0 <= i < |tail| ==> !tail[i]
    ensures Feed(g, r, tail) != Zeros(n)
  {
    FeedZeros(g, n, tail);
    if Feed(g, r, tail) == Zeros(n) { FeedInjective(g, r, Zeros(n), tail); }
  }

  lemma {:induction false} SplitResidue(g: Bits, n: nat, lead: Bits, body: Bits, tail: Bits, i: nat)
    requires Odd(g) && n == |g| && |body| <= n && i < |body| && body[i]
    requires forall j :: 0 <= j < |lead| ==> !lead[j]
    requires forall j :: 0 <= j < |tail| ==> !tail[j]
    ensures Feed(g, Zeros(n), lead + (body + tail)) != Zeros(n)
  {
    FeedConcat(g, Zeros(n), lead, body + tail);
    FeedConcat(g, Zeros(n), body, tail);
    FeedZeros(g, n, lead);
    ShortResidue(g, n, body, i);
    TailResidue(g, n, Feed(g, Zeros(n), body), tail);
  }

  /** A burst no wider than the register leaves a residue. */
  lemma {:induction false} BurstResidue(g: Bits, n: nat, e: Bits, from: nat)
    requires Odd(g) && n == |g| && Burst(e, from, n) && from <= |e|
    ensures Feed(g, Zeros(n), e) != Zeros(n)
  {
    var to := if from + n <= |e| then from + n else |e|;
    assert e == e[..from] + (e[from..to] + e[to..]);
    var i :| 0 <= i < |e| && e[i];
    SplitResidue(g, n, e[..from], e[from..to], e[to..], i - from);
  }

  lemma {:induction false} XorSelf(a: Bits, b: Bits)
    requires |a| == |b|
    ensures Xor(a, b) == Zeros(|a|) <==> a == b
  {
    if Xor(a, b) == Zeros(|a|) {
      forall i | 0 <= i < |a| ensures a[i] == b[i] { assert !Xor(a, b)[i]; }
    }
  }

  /** Two checksums of equally long byte strings differ by the residue of the error. */
  lemma {:induction false} CrcDifference(g: Bits, r: Bits, sent: seq<Byte>, received: seq<Byte>)
    requires Fits(g, r) && |r| >= 8 && |sent| == |received|
    ensures Xor(CrcFrom(g, r, sent), CrcFrom(g, r, received))
         == Feed(g, Zeros(|r|), Xor(Stream(sent), Stream(received)))
  {
    CrcIsFeed(g, r, sent);
    CrcIsFeed(g, r, received);
    FeedLinear(g, r, r, Stream(sent), Stream(received));
    XorSelf(r, r);
  }

  lemma {:induction false} BurstChanges(g: Bits, r: Bits, sent: seq<Byte>, received: seq<Byte>, from: nat)
    requires Odd(g) && Fits(g, r) && |r| >= 8 && |sent| == |received| && from <= 8 * |sent|
    requires Burst(Xor(Stream(sent), Stream(received)), from, |r|)
    ensures CrcFrom(g, r, sent) != CrcFrom(g, r, received)
  {
    CrcDifference(g, r, sent, received);
    BurstResidue(g, |r|, Xor(Stream(sent), Stream(received)), from);
    XorSelf(CrcFrom(g, r, sent), CrcFrom(g, r, received));
  }

  // -------------------------------------------------------------------- CRC-64

  /** 0x42f0e1eba9ea3693 */
  const POLYNOMIAL_64: Word64 := Hex([4, 2, 15, 0, 14, 1, 14, 11]) + Hex([10, 9, 14, 10, 3, 6, 9, 3])

  function Crc64(bytes: seq<Byte>): Word64 { CrcFrom(POLYNOMIAL_64, Zeros(64), bytes) }

  method EliteCrc64(bytes: seq<Byte>) returns (crc: Word64)
    ensures crc == Crc64(bytes)
  {
    crc := RunCrc(POLYNOMIAL_64, Zeros(64), bytes);
  }

  lemma {:induction false} PolynomialOdd64()
    ensures Odd(POLYNOMIAL_64)
  {
    var low := [10, 9, 14, 10, 3, 6, 9, 3];
    assert low[7] == 3;
    assert Hex(low)[31] == NibbleBit(low[7], 3);
  }

  /** Any nonzero error confined to 64 consecutive bits of a payload changes the
      checksum, whatever the payload and its length. */
  lemma {:induction false} BurstDetected(sent: seq<Byte>, received: seq<Byte>, from: nat)
    requires |sent| == |received| && from <= 8 * |sent|
    requires Burst(Xor(Stream(sent), Stream(received)), from, 64)
    ensures Crc64(sent) != Crc64(received)
  {
    PolynomialOdd64();
    BurstChanges(POLYNOMIAL_64, Zeros(64), sent, received, from);
  }
}
