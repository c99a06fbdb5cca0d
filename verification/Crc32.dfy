/** elite_crc32 and elite_header_crc32 of src/elite_format.c.

    A word is written most significant bit first, as its hexadecimal constants are,
    and the register shifts right.  Reversed, it is the machine of module Crc, so its
    linearity, injectivity and burst detection carry over; the 256-entry table of
    section 8 of RFC 1952 is the independent definition it is proved equal to.  */
module Crc32 {
  import opened Crc

  /** 0xedb88320 */
  const POLYNOMIAL_32: Word32 := Hex([14, 13, 11, 8, 8, 3, 2, 0])

  function ShiftRight(w: Bits, k: nat): (r: Bits)
    requires k <= |w|
    ensures |r| == |w|
  {
    Zeros(k) + w[..|w| - k]
  }

  function TurnRight(g: Bits, w: Bits): (r: Bits)
    requires Fits(g, w)
    ensures |r| == |w|
  {
    Xor(ShiftRight(w, 1), if w[|w| - 1] then g else Zeros(|w|))
  }

  function TurnsRight(g: Bits, w: Bits, k: nat): (r: Bits)
    requires Fits(g, w)
    ensures |r| == |w|
    decreases k
  {
    if k == 0 then w else TurnsRight(g, TurnRight(g, w), k - 1)
  }

  function Low(p: Byte): Word32 { Zeros(24) + p }

  function Not(w: Word32): Word32 { Xor(w, seq(32, i => true)) }

  function Crc32From(g: Word32, r: Word32, bytes: seq<Byte>): Word32
    decreases |bytes|
  {
    if |bytes| == 0 then r
    else TurnsRight(g, Xor(Crc32From(g, r, bytes[..|bytes| - 1]), Low(bytes[|bytes| - 1])), 8)
  }

  function Crc32(bytes: seq<Byte>): Word32 { Not(Crc32From(POLYNOMIAL_32, Not(Zeros(32)), bytes)) }

  lemma {:induction false} OneTurnRight(g: Bits, w: Bits, k: nat)
    requires Fits(g, w)
    ensures TurnsRight(g, w, k + 1) == TurnsRight(g, TurnRight(g, w), k)
  {
  }

  method TurnLoopRight(g: Bits, w: Bits, k: nat) returns (crc: Bits)
    requires Fits(g, w)
    ensures |crc| == |w| && crc == TurnsRight(g, w, k)
  {
    crc := w;
    ghost var left := k;
    for b := 0 to k
      invariant left == k - b && |crc| == |w| && TurnsRight(g, w, k) == TurnsRight(g, crc, left)
    {
      left := k - b - 1;
      OneTurnRight(g, crc, left);
      crc := TurnRight(g, crc);
    }
  }

  method AbsorbByte32(g: Word32, ghost r: Word32, ghost bytes: seq<Byte>, ghost i: nat, crc: Word32, p: Byte)
    returns (next: Word32)
    requires i < |bytes| && bytes[i] == p && crc == Crc32From(g, r, bytes[..i])
    ensures next == Crc32From(g, r, bytes[..i + 1])
  {
    assert bytes[..i + 1][..i] == bytes[..i];
    next := TurnLoopRight(g, Xor(crc, Low(p)), 8);
  }

  method RunCrc32(g: Word32, start: Word32, bytes: seq<Byte>) returns (crc: Word32)
    ensures crc == Crc32From(g, start, bytes)
  {
    crc := start;
    for i := 0 to |bytes|
      invariant crc == Crc32From(g, start, bytes[..i])
    {
      crc := AbsorbByte32(g, start, bytes, i, crc, bytes[i]);
    }
    assert bytes[..|bytes|] == bytes;
  }

  method EliteCrc32(bytes: seq<Byte>) returns (crc: Word32)
    ensures crc == Crc32(bytes)
  {
    crc := RunCrc32(POLYNOMIAL_32, Not(Zeros(32)), bytes);
    crc := Not(crc);
  }

  // --------------------------------------------- section 8 of RFC 1952: the table

  /** The number a bit string spells, most significant bit first. */
  function Number(bits: Bits): (n: nat)
    decreases |bits|
  {
    if |bits| == 0 then 0
    else 2 * Number(bits[..|bits| - 1]) + if bits[|bits| - 1] then 1 else 0
  }

  function Binary(n: nat, width: nat): (bits: Bits)
    ensures |bits| == width
    decreases width
  {
    if width == 0 then [] else Binary(n / 2, width - 1) + [n % 2 == 1]
  }

  function Step(g: Word32, c: Word32): Word32 {
    if c[31] then Xor(g, ShiftRight(c, 1)) else ShiftRight(c, 1)
  }

  function Steps(g: Word32, c: Word32, k: nat): Word32
    decreases k
  {
    if k == 0 then c else Steps(g, Step(g, c), k - 1)
  }

  function Table(g: Word32): (t: seq<Word32>)
    ensures |t| == 256 && forall n :: 0 <= n < 256 ==> t[n] == Steps(g, Binary(n, 32), 8)
  {
    seq(256, n requires 0 <= n < 256 => Steps(g, Binary(n, 32), 8))
  }

  /** (c ^ p) & 0xff */
  function Index(c: Word32, p: Byte): (n: nat)
    ensures n < 256
  {
    NumberBelow(Xor(c[24..], p));
    Number(Xor(c[24..], p))
  }

  function LookUp(g: Word32, c: Word32, p: Byte): Word32 {
    Xor(Table(g)[Index(c, p)], ShiftRight(c, 8))
  }

  function Update(g: Word32, c: Word32, bytes: seq<Byte>): Word32
    decreases |bytes|
  {
    if |bytes| == 0 then c else LookUp(g, Update(g, c, bytes[..|bytes| - 1]), bytes[|bytes| - 1])
  }

  function TableCrc32(bytes: seq<Byte>): Word32 { Not(Update(POLYNOMIAL_32, Not(Zeros(32)), bytes)) }

  function Power(k: nat): nat { if k == 0 then 1 else 2 * Power(k - 1) }

  lemma {:induction false} NumberFits(bits: Bits)
    ensures Number(bits) < Power(|bits|)
    decreases |bits|
  {
    if |bits| > 0 { NumberFits(bits[..|bits| - 1]); }
  }

  lemma {:induction false} NumberBelow(p: Byte)
    ensures Number(p) < 256
  {
    NumberFits(p);
    assert Power(4) == 16;
    assert Power(8) == 256;
  }

  lemma {:induction false} BinaryOfNumber(bits: Bits)
    ensures Binary(Number(bits), |bits|) == bits
    decreases |bits|
  {
    if |bits| > 0 {
      BinaryOfNumber(bits[..|bits| - 1]);
      assert bits == bits[..|bits| - 1] + [bits[|bits| - 1]];
    }
  }

  lemma {:induction false} LeadingZeros(bits: Bits, lead: nat)
    ensures Number(Zeros(lead) + bits) == Number(bits)
    decreases |bits| + lead
  {
    var all := Zeros(lead) + bits;
    if |bits| > 0 {
      assert all[..|all| - 1] == Zeros(lead) + bits[..|bits| - 1];
      LeadingZeros(bits[..|bits| - 1], lead);
    } else if lead > 0 {
      assert all[..|all| - 1] == Zeros(lead - 1) + bits;
      LeadingZeros(bits, lead - 1);
    }
  }

  lemma {:induction false} LowOfNumber(p: Byte)
    ensures Binary(Number(p), 32) == Low(p)
  {
    LeadingZeros(p, 24);
    BinaryOfNumber(Low(p));
  }

  lemma {:induction false} StepIsTurn(g: Word32, c: Word32)
    ensures Step(g, c) == TurnRight(g, c)
  {
  }

  lemma {:induction false} StepsAreTurns(g: Word32, c: Word32, k: nat)
    ensures Steps(g, c, k) == TurnsRight(g, c, k)
    decreases k
  {
    if k > 0 {
      StepIsTurn(g, c);
      StepsAreTurns(g, Step(g, c), k - 1);
    }
  }

  // ------------------------------------------------------- the reversed machine

  function Reverse(s: Bits): (r: Bits)
    ensures |r| == |s|
  {
    if |s| == 0 then [] else Reverse(s[1..]) + [s[0]]
  }

  lemma {:induction false} ReverseAt(s: Bits, i: nat)
    requires i < |s|
    ensures Reverse(s)[i] == s[|s| - 1 - i]
    decreases |s|
  {
    if i < |s| - 1 { ReverseAt(s[1..], i); }
  }

  /** Two strings that read alike from opposite ends. */
  ghost predicate Mirrors(a: Bits, b: Bits) {
    |a| == |b| && forall i :: 0 <= i < |a| ==> a[i] == b[|a| - 1 - i]
  }

  lemma {:induction false} ReverseIs(s: Bits, r: Bits)
    ensures r == Reverse(s) <==> Mirrors(r, s)
  {
    forall i | 0 <= i < |s| ensures Reverse(s)[i] == s[|s| - 1 - i] { ReverseAt(s, i); }
  }

  lemma {:induction false} ReverseXor(a: Bits, b: Bits)
    requires |a| == |b|
    ensures Reverse(Xor(a, b)) == Xor(Reverse(a), Reverse(b))
  {
    ReverseIs(a, Reverse(a));
    ReverseIs(b, Reverse(b));
    ReverseIs(Xor(a, b), Xor(Reverse(a), Reverse(b)));
  }

  lemma {:induction false} ReverseTwice(a: Bits)
    ensures Reverse(Reverse(a)) == a
  {
    ReverseIs(a, Reverse(a));
    ReverseIs(Reverse(a), a);
  }

  lemma {:induction false} ReverseInjective(a: Bits, b: Bits)
    requires Reverse(a) == Reverse(b)
    ensures a == b
  {
    ReverseTwice(a);
    ReverseTwice(b);
  }

  lemma {:induction false} ReverseZeros(n: nat)
    ensures Reverse(Zeros(n)) == Zeros(n)
  {
    ReverseIs(Zeros(n), Zeros(n));
  }

  lemma {:induction false} ReverseShift(w: Bits, k: nat)
    requires k <= |w|
    ensures Reverse(ShiftRight(w, k)) == Reverse(w)[k..] + Zeros(k)
  {
    ReverseIs(w, Reverse(w));
    ReverseIs(ShiftRight(w, k), Reverse(w)[k..] + Zeros(k));
  }

  lemma {:induction false} ReversePadded(bits: Bits, n: nat)
    requires |bits| <= n
    ensures Reverse(Zeros(n - |bits|) + bits) == Padded(Reverse(bits), n)
  {
    ReverseIs(bits, Reverse(bits));
    ReverseIs(Zeros(n - |bits|) + bits, Padded(Reverse(bits), n));
  }

  lemma {:induction false} ReverseEnd(w: Bits, k: nat)
    requires k <= |w|
    ensures Reverse(w[|w| - k..]) == Reverse(w)[..k]
  {
    ReverseIs(w, Reverse(w));
    ReverseIs(w[|w| - k..], Reverse(w)[..k]);
  }

  lemma {:induction false} ShiftOutIs(w: Bits)
    requires |w| > 0
    ensures ShiftOut(w) == w[1..] + Zeros(1)
  {
  }

  lemma {:induction false} ReverseTurn(g: Bits, w: Bits)
    requires Fits(g, w)
    ensures Reverse(TurnRight(g, w)) == Turn(Reverse(g), Reverse(w))
  {
    var n := |w|;
    ReverseAt(w, 0);
    ReverseShift(w, 1);
    ReverseZeros(n);
    ReverseXor(ShiftRight(w, 1), if w[n - 1] then g else Zeros(n));
    ShiftOutIs(Reverse(w));
  }

  lemma {:induction false} ReverseTurns(g: Bits, w: Bits, k: nat)
    requires Fits(g, w)
    ensures Reverse(TurnsRight(g, w, k)) == Turns(Reverse(g), Reverse(w), k)
    decreases k
  {
    if k > 0 {
      ReverseTurn(g, w);
      ReverseTurns(g, TurnRight(g, w), k - 1);
    }
  }

  /** Each byte with its least significant bit first. */
  function Reflected(bytes: seq<Byte>): (r: seq<Byte>)
    ensures |r| == |bytes| && forall i :: 0 <= i < |r| ==> r[i] == Reverse(bytes[i])
  {
    seq(|bytes|, i requires 0 <= i < |bytes| => Reverse(bytes[i]))
  }

  lemma {:induction false} ReflectedFront(bytes: seq<Byte>)
    requires |bytes| > 0
    ensures Reflected(bytes)[..|bytes| - 1] == Reflected(bytes[..|bytes| - 1])
  {
  }

  lemma {:induction false} MirrorByte(g: Word32, c: Word32, p: Byte, k: nat)
    ensures Reverse(TurnsRight(g, Xor(c, Low(p)), k))
         == Turns(Reverse(g), Xor(Reverse(c), Padded(Reverse(p), 32)), k)
  {
    ReversePadded(p, 32);
    ReverseXor(c, Low(p));
    ReverseTurns(g, Xor(c, Low(p)), k);
  }

  /** The right-shifting checksum is the left-shifting one seen in a mirror. */
  lemma {:induction false} Crc32Mirrors(g: Word32, r: Word32, bytes: seq<Byte>)
    ensures Reverse(Crc32From(g, r, bytes)) == CrcFrom(Reverse(g), Reverse(r), Reflected(bytes))
    decreases |bytes|
  {
    if |bytes| > 0 {
      var front, p := bytes[..|bytes| - 1], bytes[|bytes| - 1];
      var before := Crc32From(g, r, front);
      Crc32Mirrors(g, r, front);
      MirrorByte(g, before, p, 8);
      ReflectedFront(bytes);
    }
  }

  // ------------------------------------------------- a table look-up is eight turns

  /** As long as only zeros fall out, turning is shifting. */
  lemma {:induction false} TurnsFree(g: Bits, v: Bits, k: nat)
    requires |g| == k + |v| > 0
    ensures Turns(g, Zeros(k) + v, k) == v + Zeros(k)
    decreases k
  {
    if k > 0 {
      assert Turn(g, Zeros(k) + v) == Zeros(k - 1) + (v + [false]);
      TurnsFree(g, v + [false], k - 1);
      assert v + [false] + Zeros(k - 1) == v + Zeros(k);
    } else {
      assert Zeros(k) + v == v + Zeros(k);
    }
  }

  /** Only the k bits about to fall out feed back; the rest just moves. */
  lemma {:induction false} TurnsSplit(g: Bits, w: Bits, k: nat)
    requires Fits(g, w) && k <= |w|
    ensures Turns(g, w, k) == Xor(Turns(g, Padded(w[..k], |w|), k), w[k..] + Zeros(k))
  {
    var out, rest := Padded(w[..k], |w|), Zeros(k) + w[k..];
    assert w == Xor(out, rest);
    TurnsLinear(g, out, rest, k);
    TurnsFree(g, w[k..], k);
  }

  lemma {:induction false} TurnsSplit32(g: Word32, w: Word32, k: nat)
    requires k == 8
    ensures TurnsRight(g, w, k) == Xor(TurnsRight(g, Low(w[24..]), k), ShiftRight(w, k))
  {
    var low, moved := Low(w[24..]), ShiftRight(w, k);
    ReverseTurns(g, w, k);
    ReverseTurns(g, low, k);
    TurnsSplit(Reverse(g), Reverse(w), k);
    ReverseShift(w, k);
    ReverseEnd(w, k);
    ReversePadded(w[24..], 32);
    ReverseXor(TurnsRight(g, low, k), moved);
    ReverseInjective(TurnsRight(g, w, k), Xor(TurnsRight(g, low, k), moved));
  }

  /** A byte is added where the register's low bits are, and those index the table. */
  lemma {:induction false} ByteMeetsLow(c: Word32, p: Byte)
    ensures Xor(c, Low(p))[24..] == Xor(c[24..], p)
    ensures ShiftRight(Xor(c, Low(p)), 8) == ShiftRight(c, 8)
  {
  }

  lemma {:induction false} TableEntry(g: Word32, low: Byte, k: nat)
    requires k == 8 && Number(low) < 256
    ensures Table(g)[Number(low)] == TurnsRight(g, Low(low), k)
  {
    LowOfNumber(low);
    StepsAreTurns(g, Low(low), k);
  }

  lemma {:induction false} LookUpIsTurns(g: Word32, c: Word32, p: Byte, k: nat)
    requires k == 8
    ensures LookUp(g, c, p) == TurnsRight(g, Xor(c, Low(p)), k)
  {
    NumberBelow(Xor(c[24..], p));
    TableEntry(g, Xor(c[24..], p), k);
    TurnsSplit32(g, Xor(c, Low(p)), k);
    ByteMeetsLow(c, p);
  }

  lemma {:induction false} UpdateIsCrc(g: Word32, c: Word32, bytes: seq<Byte>)
    ensures Update(g, c, bytes) == Crc32From(g, c, bytes)
    decreases |bytes|
  {
    if |bytes| > 0 {
      UpdateIsCrc(g, c, bytes[..|bytes| - 1]);
      LookUpIsTurns(g, Update(g, c, bytes[..|bytes| - 1]), bytes[|bytes| - 1], 8);
    }
  }

  /** The bit loop computes the table-driven CRC of the standard, for every string. */
  lemma {:induction false} Crc32IsTableDriven(bytes: seq<Byte>)
    ensures Crc32(bytes) == TableCrc32(bytes)
  {
    UpdateIsCrc(POLYNOMIAL_32, Not(Zeros(32)), bytes);
  }

  // ------------------------------------------- linear, injective, burst-detecting

  lemma {:induction false} PolynomialOdd32()
    ensures Odd(Reverse(POLYNOMIAL_32))
  {
    var digits := [14, 13, 11, 8, 8, 3, 2, 0];
    assert digits[0] == 14;
    ReverseAt(POLYNOMIAL_32, 31);
    assert Hex(digits)[0] == NibbleBit(digits[0], 0);
  }

  lemma {:induction false} TurnRightLinear(g: Bits, a: Bits, b: Bits)
    requires Fits(g, a) && Fits(g, b)
    ensures TurnRight(g, Xor(a, b)) == Xor(TurnRight(g, a), TurnRight(g, b))
  {
    ReverseTurn(g, a);
    ReverseTurn(g, b);
    ReverseTurn(g, Xor(a, b));
    ReverseXor(a, b);
    TurnLinear(Reverse(g), Reverse(a), Reverse(b));
    ReverseXor(TurnRight(g, a), TurnRight(g, b));
    ReverseInjective(TurnRight(g, Xor(a, b)), Xor(TurnRight(g, a), TurnRight(g, b)));
  }

  lemma {:induction false} TurnRightInjective(a: Word32, b: Word32)
    requires TurnRight(POLYNOMIAL_32, a) == TurnRight(POLYNOMIAL_32, b)
    ensures a == b
  {
    PolynomialOdd32();
    ReverseTurn(POLYNOMIAL_32, a);
    ReverseTurn(POLYNOMIAL_32, b);
    TurnInjective(Reverse(POLYNOMIAL_32), Reverse(a), Reverse(b));
    ReverseTwice(a);
    ReverseTwice(b);
  }

  /** The bits of a string in the order they reach the register. */
  function Sent(bytes: seq<Byte>): (s: Bits)
    ensures |s| == 8 * |bytes|
  {
    Stream(Reflected(bytes))
  }

  lemma {:induction false} NotCancels(a: Word32, b: Word32)
    ensures Xor(Not(a), Not(b)) == Xor(a, b)
  {
  }

  /** What an error leaves in the register. */
  function Residue(e: Bits): Word32 { Reverse(Feed(Reverse(POLYNOMIAL_32), Zeros(32), e)) }

  lemma {:induction false} BurstLeaves(g: Word32, e: Bits, from: nat)
    requires Odd(g) && Burst(e, from, 32) && from <= |e|
    ensures Reverse(Feed(g, Zeros(32), e)) != Zeros(32)
  {
    BurstResidue(g, 32, e, from);
    ReverseZeros(32);
    if Reverse(Feed(g, Zeros(32), e)) == Zeros(32) { ReverseInjective(Feed(g, Zeros(32), e), Zeros(32)); }
  }

  /** Two checksums differ by the residue of the error, whatever the strings. */
  lemma {:induction false} Crc32Difference(a: seq<Byte>, b: seq<Byte>)
    requires |a| == |b|
    ensures Xor(Crc32(a), Crc32(b)) == Residue(Xor(Sent(a), Sent(b)))
  {
    var g, r := POLYNOMIAL_32, Not(Zeros(32));
    var x, y := Crc32From(g, r, a), Crc32From(g, r, b);
    NotCancels(x, y);
    Crc32Mirrors(g, r, a);
    Crc32Mirrors(g, r, b);
    CrcDifference(Reverse(g), Reverse(r), Reflected(a), Reflected(b));
    ReverseXor(x, y);
    ReverseTwice(Xor(x, y));
  }

  /** Any nonzero error within 32 consecutive bits changes the checksum. */
  lemma {:induction false} Burst32Detected(a: seq<Byte>, b: seq<Byte>, from: nat)
    requires |a| == |b| && from <= 8 * |a|
    requires Burst(Xor(Sent(a), Sent(b)), from, 32)
    ensures Crc32(a) != Crc32(b)
  {
    var e := Xor(Sent(a), Sent(b));
    PolynomialOdd32();
    BurstLeaves(Reverse(POLYNOMIAL_32), e, from);
    Crc32Difference(a, b);
    XorSelf(Crc32(a), Crc32(b));
  }

  // -------------------------------------------------------------------- the header

  type Header = h: seq<Byte> | |h| == 512 witness seq(512, i => Zeros(8))

  /** The header with its own checksum field (bytes 52 to 55) cleared. */
  function ChecksumCleared(header: Header): (c: Header)
    ensures forall i :: 0 <= i < 512 ==> c[i] == ClearedByte(header, i)
  {
    seq(512, i requires 0 <= i < 512 => ClearedByte(header, i))
  }

  function ClearedByte(header: Header, i: nat): Byte
    requires i < 512
  {
    if 52 <= i < 56 then Zeros(8) else header[i]
  }

  /** The checksum field, a little-endian word. */
  function Stored(header: Header): Word32 { Join(header[55], header[54], header[53], header[52]) }

  function Join(a: Byte, b: Byte, c: Byte, d: Byte): Word32 {
    var w: Bits := a; w + b + c + d
  }

  function HeaderCrc32(header: Header): Word32 { Crc32(ChecksumCleared(header)) }

  method HeaderByte(g: Word32, ghost start: Word32, header: Header, ghost cleared: Header, i: nat, crc: Word32)
    returns (next: Word32)
    requires i < 512 && cleared[i] == ClearedByte(header, i) && crc == Crc32From(g, start, cleared[..i])
    ensures next == Crc32From(g, start, cleared[..i + 1])
  {
    next := AbsorbByte32(g, start, cleared, i, crc, ClearedByte(header, i));
  }

  method RunHeaderCrc32(g: Word32, start: Word32, header: Header, ghost cleared: Header) returns (crc: Word32)
    requires forall i :: 0 <= i < 512 ==> cleared[i] == ClearedByte(header, i)
    ensures crc == Crc32From(g, start, cleared)
  {
    crc := start;
    assert cleared[..0] == [];
    for i := 0 to |header|
      invariant crc == Crc32From(g, start, cleared[..i])
    {
      crc := HeaderByte(g, start, header, cleared, i, crc);
    }
    assert cleared[..|header|] == cleared;
  }

  method EliteHeaderCrc32(header: Header) returns (crc: Word32)
    ensures crc == HeaderCrc32(header)
  {
    crc := RunHeaderCrc32(POLYNOMIAL_32, Not(Zeros(32)), header, ChecksumCleared(header));
    crc := Not(crc);
  }

  /** A header whose field holds its checksum. */
  predicate Sealed(header: Header) { Stored(header) == HeaderCrc32(header) }

  /** The header with a checksum written into its field, least significant byte first. */
  function WithChecksum(header: Header, crc: Word32): (h: Header)
    ensures ChecksumCleared(h) == ChecksumCleared(header) && Stored(h) == crc
    ensures forall i :: 0 <= i < 512 && !(52 <= i < 56) ==> h[i] == header[i]
  {
    var h := header[52 := crc[24..]][53 := crc[16..24]][54 := crc[8..16]][55 := crc[..8]];
    assert ChecksumCleared(h) == ChecksumCleared(header);
    h
  }

  /** Storing the checksum seals the header, whatever its field held before. */
  lemma {:induction false} StoringSeals(header: Header)
    ensures Sealed(WithChecksum(header, HeaderCrc32(header)))
  {
    var h := WithChecksum(header, HeaderCrc32(header));
    assert HeaderCrc32(h) == HeaderCrc32(header);
  }

  /** A damaged header passes for sealed exactly when the damage outside the field
      leaves the residue by which the field itself changed. */
  lemma {:induction false} DamagePassesExactly(sent: Header, received: Header)
    requires Sealed(sent)
    ensures Sealed(received)
       <==> Residue(Xor(Sent(ChecksumCleared(sent)), Sent(ChecksumCleared(received))))
              == Xor(Stored(sent), Stored(received))
  {
    Crc32Difference(ChecksumCleared(sent), ChecksumCleared(received));
    XorMoves(Stored(sent), HeaderCrc32(received), Stored(received));
  }

  lemma {:induction false} XorMoves(a: Word32, b: Word32, c: Word32)
    ensures Xor(a, b) == Xor(a, c) <==> b == c
  {
    if Xor(a, b) == Xor(a, c) {
      forall i | 0 <= i < 32 ensures b[i] == c[i] { assert Xor(a, b)[i] == Xor(a, c)[i]; }
    }
  }

  /** So a burst of at most 32 bits beside the field is always rejected, and so is any
      damage inside the field. */
  lemma {:induction false} HeaderBurstRejected(sent: Header, received: Header, from: nat)
    requires Sealed(sent) && from <= 4096
    requires Stored(sent) == Stored(received)
    requires Burst(Xor(Sent(ChecksumCleared(sent)), Sent(ChecksumCleared(received))), from, 32)
    ensures !Sealed(received)
  {
    Burst32Detected(ChecksumCleared(sent), ChecksumCleared(received), from);
  }

  lemma {:induction false} FieldDamageRejected(sent: Header, received: Header)
    requires Sealed(sent) && ChecksumCleared(sent) == ChecksumCleared(received) && sent != received
    ensures !Sealed(received)
  {
    if Stored(sent) == Stored(received) { SameFieldSameHeader(sent, received); }
  }

  lemma {:induction false} SameFieldSameHeader(a: Header, b: Header)
    requires Stored(a) == Stored(b) && ChecksumCleared(a) == ChecksumCleared(b)
    ensures a == b
  {
    forall i | 0 <= i < 512 ensures a[i] == b[i] { FieldByte(a, b, i); }
  }

  lemma {:induction false} FieldByte(a: Header, b: Header, i: nat)
    requires i < 512 && Stored(a) == Stored(b) && ChecksumCleared(a) == ChecksumCleared(b)
    ensures a[i] == b[i]
  {
    if 52 <= i < 56 {
      assert a[i] == Stored(a)[8 * (55 - i)..8 * (56 - i)];
      assert b[i] == Stored(b)[8 * (55 - i)..8 * (56 - i)];
    } else {
      assert ChecksumCleared(a)[i] == a[i];
      assert ChecksumCleared(b)[i] == b[i];
    }
  }
}
