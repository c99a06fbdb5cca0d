/** The 512 bytes of the immutable header, as include/elite_ringbuffer.h lays them
    out: what elite_create writes and elite_validate_prefix of src/elite_format.c
    accepts, checksum included.  Numbers are little-endian.  */
module Prefix {
  import opened Words
  import opened Crc
  import opened Crc32
  import G = Geometry

  // ---------------------------------------------------------------- little-endian

  function Value(b: seq<Byte>): nat {
    if |b| == 0 then 0 else Number(b[0]) + 256 * Value(b[1..])
  }

  function Le(width: nat, v: nat): (b: seq<Byte>)
    ensures |b| == width
  {
    if width == 0 then [] else [Binary(v % 256, 8)] + Le(width - 1, v / 256)
  }

  function Range(width: nat): nat { if width == 0 then 1 else 256 * Range(width - 1) }

  lemma {:induction false} NumberOfBinary(n: nat, width: nat)
    requires n < Power(width)
    ensures Number(Binary(n, width)) == n
  {
    if width > 0 {
      NumberOfBinary(n / 2, width - 1);
      assert Binary(n, width)[..width - 1] == Binary(n / 2, width - 1);
    }
  }

  lemma {:induction false} ByteOf(n: nat, width: nat)
    requires width == 8 && n < 256
    ensures Number(Binary(n, width)) == n
  {
    assert Power(4) == 16;
    assert Power(8) == 256;
    NumberOfBinary(n, width);
  }

  lemma {:induction false} ValueOfLe(width: nat, v: nat)
    requires v < Range(width)
    ensures Value(Le(width, v)) == v
  {
    if width > 0 {
      ByteOf(v % 256, 8);
      ValueOfLe(width - 1, v / 256);
      assert Le(width, v)[1..] == Le(width - 1, v / 256);
    }
  }

  lemma {:induction false} LeFront(width: nat, x: Byte, v: nat, whole: nat)
    requires whole == Number(x) + 256 * v
    ensures Le(width + 1, whole) == [x] + Le(width, v)
  {
    NumberBelow(x);
    BinaryOfNumber(x);
    assert whole % 256 == Number(x) && whole / 256 == v;
  }

  lemma {:induction false} ValueFits(b: seq<Byte>)
    ensures Value(b) < Range(|b|)
    decreases |b|
  {
    if |b| > 0 {
      NumberBelow(b[0]);
      ValueFits(b[1..]);
    }
  }

  lemma {:induction false} FirstAndRest(b: seq<Byte>)
    requires |b| > 0
    ensures [b[0]] + b[1..] == b
  {
  }

  lemma {:induction false} LeOfValue(b: seq<Byte>)
    ensures Le(|b|, Value(b)) == b
    decreases |b|
  {
    if |b| > 0 {
      var rest := b[1..];
      LeOfValue(rest);
      LeFront(|rest|, b[0], Value(rest), Value(b));
      FirstAndRest(b);
    }
  }

  /** The bytes of k words of one width. */
  function Size(width: nat, k: nat): nat { if k == 0 then 0 else width + Size(width, k - 1) }

  function Pack(width: nat, ws: seq<nat>): (b: seq<Byte>)
    ensures |b| == Size(width, |ws|)
  {
    if |ws| == 0 then [] else Le(width, ws[0]) + Pack(width, ws[1..])
  }

  function Unpack(width: nat, b: seq<Byte>, k: nat): (ws: seq<nat>)
    requires |b| == Size(width, k)
    ensures |ws| == k
  {
    if k == 0 then [] else [Value(b[..width])] + Unpack(width, b[width..], k - 1)
  }

  predicate InRange(width: nat, ws: seq<nat>) { forall i :: 0 <= i < |ws| ==> ws[i] < Range(width) }

  lemma {:induction false} CutFront(front: seq<Byte>, rest: seq<Byte>)
    ensures (front + rest)[..|front|] == front && (front + rest)[|front|..] == rest
  {
  }

  lemma {:induction false} UnpackFront(width: nat, front: seq<Byte>, rest: seq<Byte>, k: nat)
    requires |front| == width && |rest| == Size(width, k)
    ensures Unpack(width, front + rest, k + 1) == [Value(front)] + Unpack(width, rest, k)
  {
    CutFront(front, rest);
  }

  lemma {:induction false} PackFront(width: nat, w: nat, ws: seq<nat>)
    ensures Pack(width, [w] + ws) == Le(width, w) + Pack(width, ws)
  {
    assert ([w] + ws)[1..] == ws;
  }

  lemma {:induction false} ReadsFront(width: nat, w: nat, rest: seq<nat>)
    requires w < Range(width) && Unpack(width, Pack(width, rest), |rest|) == rest
    ensures Unpack(width, Pack(width, [w] + rest), |rest| + 1) == [w] + rest
  {
    PackFront(width, w, rest);
    UnpackFront(width, Le(width, w), Pack(width, rest), |rest|);
    ValueOfLe(width, w);
  }

  lemma {:induction false} UnpackOfPack(width: nat, ws: seq<nat>)
    requires InRange(width, ws)
    ensures Unpack(width, Pack(width, ws), |ws|) == ws
    decreases |ws|
  {
    if |ws| > 0 {
      UnpackOfPack(width, ws[1..]);
      ReadsFront(width, ws[0], ws[1..]);
      assert ws == [ws[0]] + ws[1..];
    }
  }

  lemma {:induction false} UnpackInRange(width: nat, b: seq<Byte>, k: nat)
    requires |b| == Size(width, k)
    ensures InRange(width, Unpack(width, b, k))
    decreases k
  {
    if k > 0 {
      ValueFits(b[..width]);
      UnpackInRange(width, b[width..], k - 1);
    }
  }

  lemma {:induction false} WritesFront(width: nat, front: seq<Byte>, rest: seq<Byte>, k: nat)
    requires |front| == width && |rest| == Size(width, k) && Pack(width, Unpack(width, rest, k)) == rest
    ensures Pack(width, Unpack(width, front + rest, k + 1)) == front + rest
  {
    UnpackFront(width, front, rest, k);
    PackFront(width, Value(front), Unpack(width, rest, k));
    LeOfValue(front);
  }

  lemma {:induction false} Cut(b: seq<Byte>, k: nat) returns (front: seq<Byte>, rest: seq<Byte>)
    requires k <= |b|
    ensures b == front + rest && |front| == k
  {
    front, rest := b[..k], b[k..];
  }

  lemma {:induction false} PackOfUnpack(width: nat, b: seq<Byte>, k: nat)
    requires |b| == Size(width, k)
    ensures Pack(width, Unpack(width, b, k)) == b
    decreases k
  {
    if k > 0 { PacksMore(width, b, k - 1); } else { assert b == []; }
  }

  lemma {:induction false} PacksMore(width: nat, b: seq<Byte>, k: nat)
    requires |b| == width + Size(width, k)
    ensures |b| == Size(width, k + 1) && Pack(width, Unpack(width, b, k + 1)) == b
    decreases k + 1, 0
  {
    var front, rest := Cut(b, width);
    PackOfUnpack(width, rest, k);
    WritesFront(width, front, rest, k);
  }

  // --------------------------------------------------------------- fields in a row

  /** The sizes of the fields of the C struct, runs of equal words as one. */
  predicate Sized(parts: seq<seq<Byte>>) {
    && |parts| == 16
    && |parts[0]| == 8 && |parts[1]| == 44 && |parts[2]| == 4 && |parts[3]| == |parts[4]| == |parts[5]| == 16
    && |parts[6]| == 8 && |parts[7]| == 48 && |parts[8]| == |parts[9]| == |parts[10]| == 16
    && |parts[11]| == 8 && |parts[12]| == 16 && |parts[13]| == 24 && |parts[14]| == 16 && |parts[15]| == 240
  }

  /** Every field stands at its offset. */
  ghost predicate Placed(h: Header, parts: seq<seq<Byte>>)
    requires |parts| == 16
  {
    && h[..8] == parts[0] && h[8..52] == parts[1] && h[52..56] == parts[2] && h[56..72] == parts[3]
    && h[72..88] == parts[4] && h[88..104] == parts[5] && h[104..112] == parts[6] && h[112..160] == parts[7]
    && PlacedBack(h, parts)
  }

  ghost predicate PlacedBack(h: Header, parts: seq<seq<Byte>>)
    requires |parts| == 16
  {
    && h[160..176] == parts[8] && h[176..192] == parts[9] && h[192..208] == parts[10] && h[208..216] == parts[11]
    && h[216..232] == parts[12] && h[232..256] == parts[13] && h[256..272] == parts[14] && h[272..] == parts[15]
  }

  function Join(parts: seq<seq<Byte>>): seq<Byte> {
    if |parts| == 0 then [] else parts[0] + Join(parts[1..])
  }

  lemma {:induction false} JoinFrom(parts: seq<seq<Byte>>, k: nat)
    requires k < |parts|
    ensures Join(parts[k..]) == parts[k] + Join(parts[k + 1..])
  {
    assert parts[k..][1..] == parts[k + 1..];
  }

  lemma {:induction false} JoinFills(parts: seq<seq<Byte>>, k: nat, size: nat)
    requires k < |parts| && |Join(parts[k + 1..])| == size
    ensures |Join(parts[k..])| == |parts[k]| + size
  {
    JoinFrom(parts, k);
  }

  lemma {:induction false} Fills(parts: seq<seq<Byte>>)
    requires Sized(parts)
    ensures |Join(parts)| == 512
  {
    assert parts[16..] == [];
    JoinFills(parts, 15, 0);
    JoinFills(parts, 14, 240);
    JoinFills(parts, 13, 256);
    JoinFills(parts, 12, 280);
    JoinFills(parts, 11, 296);
    JoinFills(parts, 10, 304);
    JoinFills(parts, 9, 320);
    JoinFills(parts, 8, 336);
    JoinFills(parts, 7, 352);
    JoinFills(parts, 6, 400);
    JoinFills(parts, 5, 408);
    JoinFills(parts, 4, 424);
    JoinFills(parts, 3, 440);
    JoinFills(parts, 2, 456);
    JoinFills(parts, 1, 460);
    JoinFills(parts, 0, 504);
    assert parts[0..] == parts;
  }

  lemma {:induction false} FieldAt(h: Header, parts: seq<seq<Byte>>, k: nat, from: nat, to: nat)
    requires k < |parts| && from <= to <= 512 && to == from + |parts[k]|
    ensures h[from..] == Join(parts[k..]) <==> h[from..to] == parts[k] && h[to..] == Join(parts[k + 1..])
  {
    JoinFrom(parts, k);
    assert h[from..] == h[from..to] + h[to..];
    if h[from..] == Join(parts[k..]) {
      assert h[from..][..to - from] == h[from..to] && h[from..][to - from..] == h[to..];
    }
  }

  lemma {:induction false} BackFields(h: Header, parts: seq<seq<Byte>>)
    requires Sized(parts)
    ensures h[160..] == Join(parts[8..]) <==> PlacedBack(h, parts)
  {
    FieldAt(h, parts, 8, 160, 176);
    FieldAt(h, parts, 9, 176, 192);
    FieldAt(h, parts, 10, 192, 208);
    FieldAt(h, parts, 11, 208, 216);
    FieldAt(h, parts, 12, 216, 232);
    FieldAt(h, parts, 13, 232, 256);
    FieldAt(h, parts, 14, 256, 272);
    FieldAt(h, parts, 15, 272, 512);
    assert h[512..] == [] && parts[16..] == [];
    assert h[272..512] == h[272..];
  }

  /** The fields in a row make exactly the header that has each at its offset. */
  lemma {:induction false} FieldsPlaced(h: Header, parts: seq<seq<Byte>>)
    requires Sized(parts)
    ensures h == Join(parts) <==> Placed(h, parts)
  {
    assert h[0..] == h && parts[0..] == parts;
    FieldAt(h, parts, 0, 0, 8);
    FieldAt(h, parts, 1, 8, 52);
    FieldAt(h, parts, 2, 52, 56);
    FieldAt(h, parts, 3, 56, 72);
    FieldAt(h, parts, 4, 72, 88);
    FieldAt(h, parts, 5, 88, 104);
    FieldAt(h, parts, 6, 104, 112);
    FieldAt(h, parts, 7, 112, 160);
    BackFields(h, parts);
  }

  // -------------------------------------------------------------------- the record

  datatype Abi = Abi(
    magic: seq<Byte>, version: nat, headerBytes: nat, immutableBytes: nat, flags: nat, endian: nat,
    isolation: nat, quantum: nat, atomicAbi: nat, lifecycle: nat, maxObjects: nat, maxQuarantined: nat)

  datatype Identity = Identity(session: seq<Byte>, host: seq<Byte>, authority: seq<Byte>, epoch: nat)

  datatype Record = Record(abi: Abi, config: G.Config, layout: G.Layout, crc: Word32, id: Identity,
                           predecessor: seq<Byte>, creation: nat, reserved: seq<Byte>)

  // The runs of equal words between the byte fields, by the offsets of the C struct.

  function Words8(p: Record): seq<nat> {
    [p.abi.version, p.abi.headerBytes, p.abi.immutableBytes, p.abi.flags, p.config.profile, p.abi.endian,
     p.abi.isolation, p.abi.quantum, p.abi.atomicAbi, p.config.waitMode, p.config.checksumMode]
  }

  function Words56(p: Record): seq<nat> { [p.layout.segment, p.config.capacity] }

  function Words72(p: Record): seq<nat> {
    [p.config.maxPayload, p.layout.endpoints, p.layout.descriptorStride, p.layout.entryStride]
  }

  function Words88(p: Record): seq<nat> { [p.layout.payloadStride, p.layout.participants] }

  function Words104(p: Record): seq<nat> { [p.layout.participantStride, p.abi.lifecycle] }

  function Words112(p: Record): seq<nat> {
    [p.layout.descriptors, p.layout.payloads, p.layout.qf, p.layout.qr, p.layout.ticketCeiling, p.layout.epochCeiling]
  }

  function Words208(p: Record): seq<nat> { [p.id.epoch] }

  function Words232(p: Record): seq<nat> { [p.creation, p.layout.waitSlice, p.config.maxBacking] }

  function Words256(p: Record): seq<nat> {
    [p.config.producers, p.config.consumers, p.abi.maxObjects, p.abi.maxQuarantined]
  }

  /** A word as four bytes, least significant first. */
  function CrcBytes(w: Word32): (b: seq<Byte>)
    ensures |b| == 4
  {
    [w[24..], w[16..24], w[8..16], w[..8]]
  }

  predicate Shaped(p: Record) {
    && |p.abi.magic| == 8 && |p.reserved| == 240
    && |p.id.session| == |p.id.host| == |p.id.authority| == |p.predecessor| == 16
  }

  predicate WellFormed(p: Record) {
    && Shaped(p)
    && InRange(4, Words8(p)) && InRange(8, Words56(p)) && InRange(4, Words72(p)) && InRange(8, Words88(p))
    && InRange(4, Words104(p)) && InRange(8, Words112(p)) && InRange(8, Words208(p)) && InRange(8, Words232(p))
    && InRange(4, Words256(p))
  }

  function FrontParts(p: Record): seq<seq<Byte>> {
    [p.abi.magic, Pack(4, Words8(p)), CrcBytes(p.crc), Pack(8, Words56(p)), Pack(4, Words72(p)), Pack(8, Words88(p)),
     Pack(4, Words104(p)), Pack(8, Words112(p))]
  }

  function BackParts(p: Record): seq<seq<Byte>> {
    [p.id.session, p.id.host, p.id.authority, Pack(8, Words208(p)), p.predecessor, Pack(8, Words232(p)),
     Pack(4, Words256(p)), p.reserved]
  }

  lemma {:induction false} Sizes()
    ensures Size(4, 2) == 8 && Size(4, 4) == 16 && Size(4, 11) == 44
    ensures Size(8, 1) == 8 && Size(8, 2) == 16 && Size(8, 3) == 24 && Size(8, 6) == 48
    ensures Range(4) == 0x1_0000_0000 && Range(8) == U64
  {
    assert Size(4, 6) == 24;
    assert Range(2) == 0x1_0000;
    assert Range(6) == 0x1_0000_0000_0000;
  }

  lemma {:induction false} FrontSizes(p: Record)
    requires Shaped(p)
    ensures var f := FrontParts(p);
      && |f[0]| == 8 && |f[1]| == 44 && |f[2]| == 4 && |f[3]| == |f[4]| == |f[5]| == 16 && |f[6]| == 8 && |f[7]| == 48
  {
    Sizes();
  }

  lemma {:induction false} BackSizes(p: Record)
    requires Shaped(p)
    ensures var b := BackParts(p);
      && |b[0]| == |b[1]| == |b[2]| == 16
      && |b[3]| == 8 && |b[4]| == 16 && |b[5]| == 24 && |b[6]| == 16 && |b[7]| == 240
  {
    Sizes();
  }

  lemma {:induction false} SizedParts(front: seq<seq<Byte>>, back: seq<seq<Byte>>)
    requires |front| == |back| == 8
    requires |front[0]| == 8 && |front[1]| == 44 && |front[2]| == 4 && |front[3]| == |front[4]| == |front[5]| == 16
    requires |front[6]| == 8 && |front[7]| == 48 && |back[0]| == |back[1]| == |back[2]| == 16
    requires |back[3]| == 8 && |back[4]| == 16 && |back[5]| == 24 && |back[6]| == 16 && |back[7]| == 240
    ensures Sized(front + back)
  {
  }

  lemma {:induction false} PartsSized(p: Record)
    requires Shaped(p)
    ensures Sized(FrontParts(p) + BackParts(p))
  {
    FrontSizes(p);
    BackSizes(p);
    SizedParts(FrontParts(p), BackParts(p));
  }

  function Encode(p: Record): Header
    requires WellFormed(p)
  {
    PartsSized(p);
    Fills(FrontParts(p) + BackParts(p));
    Join(FrontParts(p) + BackParts(p))
  }

  function Unpack32(b: seq<Byte>, k: nat): (ws: seq<nat>)
    requires |b| == Size(4, k)
    ensures |ws| == k && InRange(4, ws) && forall i :: 0 <= i < k ==> ws[i] < 0x1_0000_0000
  {
    UnpackInRange(4, b, k);
    Sizes();
    Unpack(4, b, k)
  }

  function Unpack64(b: seq<Byte>, k: nat): (ws: seq<nat>)
    requires |b| == Size(8, k)
    ensures |ws| == k && InRange(8, ws) && forall i :: 0 <= i < k ==> ws[i] < U64
  {
    UnpackInRange(8, b, k);
    Sizes();
    Unpack(8, b, k)
  }

  function DecodeAbi(h: Header): Abi {
    Sizes();
    var w, part, count := Unpack32(h[8..52], 11), Unpack32(h[104..112], 2), Unpack32(h[256..272], 4);
    Abi(h[..8], w[0], w[1], w[2], w[3], w[5], w[6], w[7], w[8], part[1], count[2], count[3])
  }

  function DecodeConfig(h: Header): G.Config {
    Sizes();
    var w, size, shape := Unpack32(h[8..52], 11), Unpack64(h[56..72], 2), Unpack32(h[72..88], 4);
    var time, count := Unpack64(h[232..256], 3), Unpack32(h[256..272], 4);
    G.Config(w[4], w[9], w[10], size[1], shape[0], count[0], count[1], time[2])
  }

  function DecodeLayout(h: Header): G.Layout {
    Sizes();
    var size, shape, place := Unpack64(h[56..72], 2), Unpack32(h[72..88], 4), Unpack64(h[88..104], 2);
    var part, off, time := Unpack32(h[104..112], 2), Unpack64(h[112..160], 6), Unpack64(h[232..256], 3);
    G.Layout(shape[1], place[1], part[0], shape[2], shape[3], off[2], off[3], off[0], off[1], place[0],
             size[0], off[4], off[5], time[1])
  }

  function Decode(h: Header): Record {
    Sizes();
    Record(DecodeAbi(h), DecodeConfig(h), DecodeLayout(h), Stored(h),
           Identity(h[160..176], h[176..192], h[192..208], Unpack64(h[208..216], 1)[0]),
           h[216..232], Unpack64(h[232..256], 3)[0], h[272..])
  }

  // ------------------------------------------------------------------- round trips

  lemma {:induction false} StoredIs(h: Header, crc: Word32)
    requires h[52..56] == CrcBytes(crc)
    ensures Stored(h) == crc
  {
    assert h[52] == h[52..56][0] && h[53] == h[52..56][1] && h[54] == h[52..56][2] && h[55] == h[52..56][3];
  }

  lemma {:induction false} UnpacksWords(p: Record)
    requires WellFormed(p)
    ensures Unpack(4, Pack(4, Words8(p)), 11) == Words8(p) && Unpack(8, Pack(8, Words56(p)), 2) == Words56(p)
    ensures Unpack(4, Pack(4, Words72(p)), 4) == Words72(p) && Unpack(8, Pack(8, Words88(p)), 2) == Words88(p)
    ensures Unpack(4, Pack(4, Words104(p)), 2) == Words104(p) && Unpack(8, Pack(8, Words112(p)), 6) == Words112(p)
    ensures Unpack(8, Pack(8, Words208(p)), 1) == Words208(p) && Unpack(8, Pack(8, Words232(p)), 3) == Words232(p)
    ensures Unpack(4, Pack(4, Words256(p)), 4) == Words256(p)
  {
    UnpackOfPack(4, Words8(p));
    UnpackOfPack(8, Words56(p));
    UnpackOfPack(4, Words72(p));
    UnpackOfPack(8, Words88(p));
    UnpackOfPack(4, Words104(p));
    UnpackOfPack(8, Words112(p));
    UnpackOfPack(8, Words208(p));
    UnpackOfPack(8, Words232(p));
    UnpackOfPack(4, Words256(p));
  }

  lemma {:induction false} PlacedParts(h: Header, front: seq<seq<Byte>>, back: seq<seq<Byte>>)
    requires |front| == |back| == 8
    ensures Placed(h, front + back) <==>
      && h[..8] == front[0] && h[8..52] == front[1] && h[52..56] == front[2] && h[56..72] == front[3]
      && h[72..88] == front[4] && h[88..104] == front[5] && h[104..112] == front[6] && h[112..160] == front[7]
      && h[160..176] == back[0] && h[176..192] == back[1] && h[192..208] == back[2] && h[208..216] == back[3]
      && h[216..232] == back[4] && h[232..256] == back[5] && h[256..272] == back[6] && h[272..] == back[7]
  {
  }

  lemma {:induction false} DecodesPlaced(h: Header, p: Record)
    requires WellFormed(p) && Placed(h, FrontParts(p) + BackParts(p))
    ensures Decode(h) == p
  {
    Sizes();
    PlacedParts(h, FrontParts(p), BackParts(p));
    StoredIs(h, p.crc);
    UnpacksWords(p);
    assert DecodeAbi(h) == p.abi;
    assert DecodeConfig(h) == p.config;
    assert DecodeLayout(h) == p.layout;
  }

  /** Reading the bytes of a record gives the record back. */
  lemma {:induction false} DecodeOfEncode(p: Record)
    requires WellFormed(p)
    ensures Decode(Encode(p)) == p
  {
    PartsSized(p);
    FieldsPlaced(Encode(p), FrontParts(p) + BackParts(p));
    DecodesPlaced(Encode(p), p);
  }

  lemma {:induction false} StoredBytes(h: Header)
    ensures h[52..56] == CrcBytes(Stored(h))
  {
    var w := Stored(h);
    assert w[24..] == h[52] && w[16..24] == h[53] && w[8..16] == h[54] && w[..8] == h[55];
  }

  lemma {:induction false} DecodedWords(h: Header)
    ensures Words8(Decode(h)) == Unpack32(h[8..52], 11) && Words56(Decode(h)) == Unpack64(h[56..72], 2)
    ensures Words72(Decode(h)) == Unpack32(h[72..88], 4) && Words88(Decode(h)) == Unpack64(h[88..104], 2)
    ensures Words104(Decode(h)) == Unpack32(h[104..112], 2) && Words112(Decode(h)) == Unpack64(h[112..160], 6)
    ensures Words208(Decode(h)) == Unpack64(h[208..216], 1) && Words232(Decode(h)) == Unpack64(h[232..256], 3)
    ensures Words256(Decode(h)) == Unpack32(h[256..272], 4)
  {
    Sizes();
  }

  lemma {:induction false} PackedFront(h: Header, p: Record)
    requires p == Decode(h)
    ensures InRange(4, Words8(p)) && InRange(8, Words56(p)) && InRange(4, Words72(p)) && InRange(8, Words88(p))
    ensures InRange(4, Words104(p))
    ensures Pack(4, Words8(p)) == h[8..52] && Pack(8, Words56(p)) == h[56..72] && Pack(4, Words72(p)) == h[72..88]
    ensures Pack(8, Words88(p)) == h[88..104] && Pack(4, Words104(p)) == h[104..112]
  {
    Sizes();
    DecodedWords(h);
    PackOfUnpack(4, h[8..52], 11);
    PackOfUnpack(8, h[56..72], 2);
    PackOfUnpack(4, h[72..88], 4);
    PackOfUnpack(8, h[88..104], 2);
    PackOfUnpack(4, h[104..112], 2);
  }

  lemma {:induction false} PackedBack(h: Header, p: Record)
    requires p == Decode(h)
    ensures InRange(8, Words112(p)) && InRange(8, Words208(p)) && InRange(8, Words232(p)) && InRange(4, Words256(p))
    ensures Pack(8, Words112(p)) == h[112..160] && Pack(8, Words208(p)) == h[208..216]
    ensures Pack(8, Words232(p)) == h[232..256] && Pack(4, Words256(p)) == h[256..272]
  {
    Sizes();
    DecodedWords(h);
    PackOfUnpack(8, h[112..160], 6);
    PackOfUnpack(8, h[208..216], 1);
    PackOfUnpack(8, h[232..256], 3);
    PackOfUnpack(4, h[256..272], 4);
  }

  lemma {:induction false} RawFields(h: Header, p: Record)
    requires p == Decode(h)
    ensures h[..8] == p.abi.magic && h[52..56] == CrcBytes(p.crc) && h[160..176] == p.id.session
    ensures h[176..192] == p.id.host && h[192..208] == p.id.authority && h[216..232] == p.predecessor
    ensures h[272..] == p.reserved && Shaped(p)
  {
    StoredBytes(h);
  }

  lemma {:induction false} EncodesPlaced(h: Header, p: Record)
    requires WellFormed(p) && Placed(h, FrontParts(p) + BackParts(p))
    ensures Encode(p) == h
  {
    PartsSized(p);
    FieldsPlaced(h, FrontParts(p) + BackParts(p));
  }

  lemma {:induction false} FrontSlices(h: Header, p: Record)
    requires h[..8] == p.abi.magic && h[8..52] == Pack(4, Words8(p)) && h[52..56] == CrcBytes(p.crc)
    requires h[56..72] == Pack(8, Words56(p)) && h[72..88] == Pack(4, Words72(p)) && h[88..104] == Pack(8, Words88(p))
    requires h[104..112] == Pack(4, Words104(p)) && h[112..160] == Pack(8, Words112(p))
    ensures var f := FrontParts(p);
      && h[..8] == f[0] && h[8..52] == f[1] && h[52..56] == f[2] && h[56..72] == f[3]
      && h[72..88] == f[4] && h[88..104] == f[5] && h[104..112] == f[6] && h[112..160] == f[7]
  {
  }

  lemma {:induction false} BackSlices(h: Header, p: Record)
    requires h[160..176] == p.id.session && h[176..192] == p.id.host && h[192..208] == p.id.authority
    requires h[208..216] == Pack(8, Words208(p)) && h[216..232] == p.predecessor
    requires h[232..256] == Pack(8, Words232(p)) && h[256..272] == Pack(4, Words256(p)) && h[272..] == p.reserved
    ensures var b := BackParts(p);
      && h[160..176] == b[0] && h[176..192] == b[1] && h[192..208] == b[2] && h[208..216] == b[3]
      && h[216..232] == b[4] && h[232..256] == b[5] && h[256..272] == b[6] && h[272..] == b[7]
  {
  }

  /** The struct has no holes: no header byte is lost, so comparing structs byte for byte
      is comparing records. */
  lemma {:induction false} EncodeOfDecode(h: Header, p: Record)
    requires p == Decode(h)
    ensures WellFormed(p) && Encode(p) == h
  {
    PackedFront(h, p);
    PackedBack(h, p);
    RawFields(h, p);
    FrontSlices(h, p);
    BackSlices(h, p);
    PlacedParts(h, FrontParts(p), BackParts(p));
    EncodesPlaced(h, p);
  }

  // ---------------------------------------------------------------------- validation

  /** "ELITEIPC" */
  const MAGIC: seq<Byte> :=
    [Hex([4, 5]), Hex([4, 12]), Hex([4, 9]), Hex([5, 4]), Hex([4, 5]), Hex([4, 9]), Hex([5, 0]), Hex([4, 3])]

  const CURRENT_ABI := Abi(MAGIC, 0x10000, 2048, 512, 0, 0x01020304, G.LINE, G.QUANTUM, 1, 1, 4, 2)

  function ZeroBytes(k: nat): (b: seq<Byte>)
    ensures |b| == k
  {
    var z: Byte := Zeros(8);
    seq(k, i => z)
  }

  predicate AllZero(b: seq<Byte>) { b == ZeroBytes(|b|) }

  predicate Identified(id: Identity) {
    !AllZero(id.session) && !AllZero(id.host) && !AllZero(id.authority) && id.epoch != 0
  }

  /** The part of the layout that is computed from the configuration. */
  predicate LaidOut(p: Record, backing: nat) {
    G.Accepted(p.config) && p.layout == G.LayoutOf(p.config) && p.layout.segment == backing
  }

  /** A header an attaching process may rely on. */
  predicate PrefixOk(h: Header, backing: nat) {
    var p := Decode(h);
    p.abi == CURRENT_ABI && AllZero(p.reserved) && Sealed(h) && Identified(p.id) && LaidOut(p, backing)
  }

  /** Of several defects the first in the order ABI, reserved bytes, checksum,
      identities, layout is reported. */
  method ValidatePrefix(bytes: seq<Byte>, backing: nat) returns (r: G.Status)
    ensures r == G.InvalidArgument <==> |bytes| < 512
    ensures |bytes| >= 512 ==> var h: Header := bytes[..512]; var p := Decode(h);
      && (r == G.Ok <==> PrefixOk(h, backing))
      && (r == G.BadAbi <==> p.abi != CURRENT_ABI)
      && (r == G.Integrity <==> p.abi == CURRENT_ABI && AllZero(p.reserved) && !Sealed(h))
      && (r == G.BadIdentity <==>
            p.abi == CURRENT_ABI && AllZero(p.reserved) && Sealed(h) && !Identified(p.id))
      && (r == G.BadLayout <==>
            p.abi == CURRENT_ABI && (!AllZero(p.reserved) || (Sealed(h) && Identified(p.id) && !LaidOut(p, backing))))
  {
    if |bytes| < 512 { return G.InvalidArgument; }
    var h: Header := bytes[..512];
    var p := Decode(h);
    if p.abi != CURRENT_ABI { return G.BadAbi; }
    if !AllZero(p.reserved) { return G.BadLayout; }
    var crc := EliteHeaderCrc32(h);
    if Stored(h) != crc { return G.Integrity; }
    if !Identified(p.id) { return G.BadIdentity; }
    var expected := new G.Header(p.config, p.layout);
    r := expected.Geometry();
    if r != G.Ok || p.layout.segment != backing || p.layout != expected.layout { return G.BadLayout; }
  }

  // -------------------------------------------------------------------- construction

  lemma {:induction false} SliceApart(h: Header, h': Header, from: nat, to: nat)
    requires from <= to <= 512 && (to <= 52 || from >= 56)
    requires forall i :: 0 <= i < 512 && !(52 <= i < 56) ==> h'[i] == h[i]
    ensures h'[from..to] == h[from..to]
  {
  }

  /** Storing the checksum changes that field of the record alone. */
  lemma {:induction false} ChecksumField(h: Header, crc: Word32)
    ensures Decode(WithChecksum(h, crc)) == Decode(h).(crc := crc)
  {
    var h' := WithChecksum(h, crc);
    SliceApart(h, h', 0, 8);
    SliceApart(h, h', 8, 52);
    SliceApart(h, h', 56, 72);
    SliceApart(h, h', 72, 88);
    SliceApart(h, h', 88, 104);
    SliceApart(h, h', 104, 112);
    SliceApart(h, h', 112, 160);
    BackApart(h, h');
  }

  lemma {:induction false} BackApart(h: Header, h': Header)
    requires forall i :: 0 <= i < 512 && !(52 <= i < 56) ==> h'[i] == h[i]
    ensures h'[160..176] == h[160..176] && h'[176..192] == h[176..192] && h'[192..208] == h[192..208]
    ensures h'[208..216] == h[208..216] && h'[216..232] == h[216..232] && h'[232..256] == h[232..256]
    ensures h'[256..272] == h[256..272] && h'[272..] == h[272..]
  {
    SliceApart(h, h', 160, 176);
    SliceApart(h, h', 176, 192);
    SliceApart(h, h', 192, 208);
    SliceApart(h, h', 208, 216);
    SliceApart(h, h', 216, 232);
    SliceApart(h, h', 232, 256);
    SliceApart(h, h', 256, 272);
    SliceApart(h, h', 272, 512);
    assert h[272..512] == h[272..] && h'[272..512] == h'[272..];
  }

  lemma {:induction false} LayoutInRange(c: G.Config)
    requires G.Accepted(c)
    ensures var l := G.LayoutOf(c);
      && l.endpoints < 0x1_0000_0000 && l.payloadStride < U64 && l.segment < U64 && l.descriptors < U64
      && l.payloads < U64 && l.qf < U64 && l.qr < U64 && l.ticketCeiling < U64 && l.epochCeiling < U64
  {
    G.Ascending(c);
  }

  predicate Given(id: Identity, predecessor: seq<Byte>, creation: nat) {
    && |id.session| == |id.host| == |id.authority| == |predecessor| == 16
    && id.epoch < U64 && creation < U64
  }

  lemma {:induction false} BuiltInRange(c: G.Config, id: Identity, predecessor: seq<Byte>, creation: nat)
    requires G.Accepted(c) && Given(id, predecessor, creation)
    ensures WellFormed(Record(CURRENT_ABI, c, G.LayoutOf(c), Zeros(32), id, predecessor, creation, ZeroBytes(240)))
  {
    Sizes();
    LayoutInRange(c);
  }

  const NO_LAYOUT := G.Layout(0, 0, 0, 0, 0, 0, 0, 0, 0, 0, 0, 0, 0, 0)

  /** The header part of elite_create: what it builds, every attach accepts. */
  method BuildPrefix(config: G.Config, id: Identity, predecessor: seq<Byte>, creation: nat)
    returns (r: G.Status, h: Header)
    requires Given(id, predecessor, creation) && Identified(id)
    ensures r == G.Ok <==> G.Accepted(config)
    ensures r == G.Ok ==> PrefixOk(h, G.LayoutOf(config).segment)
    ensures r == G.Ok ==> var p := Decode(h);
      p.config == config && p.id == id && p.predecessor == predecessor && p.creation == creation
  {
    var header := new G.Header(config, NO_LAYOUT);
    r := header.Geometry();
    h := ZeroBytes(512);
    if r != G.Ok { return; }
    BuiltInRange(config, id, predecessor, creation);
    var p := Record(CURRENT_ABI, config, header.layout, Zeros(32), id, predecessor, creation, ZeroBytes(240));
    h := Encode(p);
    DecodeOfEncode(p);
    var crc := EliteHeaderCrc32(h);
    ChecksumField(h, crc);
    StoringSeals(h);
    h := WithChecksum(h, crc);
  }

  /** No attach accepts a header that a burst of at most 32 bits hit beside its checksum
      field. */
  lemma {:induction false} DamagedPrefixRefused(sent: Header, received: Header, backing: nat, expected: nat, from: nat)
    requires PrefixOk(sent, backing) && Stored(sent) == Stored(received) && from <= 4096
    requires Burst(Xor(Sent(ChecksumCleared(sent)), Sent(ChecksumCleared(received))), from, 32)
    ensures !PrefixOk(received, expected)
  {
    HeaderBurstRejected(sent, received, from);
  }
}
