/** The mapped segment's layout: checked 64-bit arithmetic and el_geometry of
    src/elite_format.c, and the independent formula of
    tools/verify_matrix_results.py. */
module Geometry {
  import opened Words

  const MAX64 := U64 - 1
  const MAX63 := 0x7fff_ffff_ffff_ffff
  const QUANTUM := 16384
  const LINE := 128
  const PARTICIPANT := 256

  const SPSC := 1
  const NCQ := 2
  const POLL_ONLY := 0
  const PARKABLE := 1
  const CRC64 := 1

  const EPOCH_CEILING := 0x3fff_ffff_ffff_fffe
  const MAX_WAIT_SLICE := 10_000_000

  type Word32 = x: nat | x < 0x1_0000_0000
  type Word64 = x: nat | x < U64

  // ------------------------------------------------------------ checked arithmetic

  method Add(a: Word64, b: Word64) returns (ok: bool, r: Word64)
    ensures ok <==> a + b < U64
    ensures ok ==> r == a + b
  {
    if a > MAX64 - b { return false, 0; }
    return true, a + b;
  }

  lemma {:induction false} QuotientBound(a: nat, b: nat, m: nat)
    requires b > 0
    ensures a <= m / b <==> a * b <= m
  {
    var q, r := m / b, m % b;
    assert m == b * q + r;
    if a <= q {
      assert b * q == b * a + b * (q - a);
    } else {
      assert b * a == b * q + b + b * (a - q - 1);
    }
  }

  method Mul(a: Word64, b: Word64) returns (ok: bool, r: Word64)
    ensures ok <==> a * b < U64
    ensures ok ==> r == a * b
  {
    if b != 0 {
      QuotientBound(a, b, MAX64);
      if a > MAX64 / b { return false, 0; }
    }
    return true, a * b;
  }

  /** Least multiple of q that is at least x. */
  function Up(x: nat, q: nat): nat
    requires q > 0
  {
    if x == 0 then 0 else q + Up(if x > q then x - q else 0, q)
  }

  lemma {:induction false} UpMeans(x: nat, q: nat)
    requires q > 0
    ensures x <= Up(x, q) < x + q && Up(x, q) % q == 0
  {
    if x > 0 {
      var y := if x > q then x - q else 0;
      UpMeans(y, q);
      NextMultiple(Up(y, q), q);
    }
  }

  lemma {:induction false} UpBounds(x: nat, q: nat)
    requires q > 0
    ensures x <= Up(x, q) < x + q
  {
    UpMeans(x, q);
  }

  lemma {:induction false} NextMultiple(u: nat, q: nat)
    requires q > 0 && u % q == 0
    ensures (q + u) % q == 0
  {
    assert u == q * (u / q);
    DivModUnique(q + u, q, u / q + 1, 0);
  }

  lemma {:induction false} UpIsQuotient(x: nat, q: nat)
    requires q > 0
    ensures Up(x, q) == (x + q - 1) / q * q == (x + q - 1) - (x + q - 1) % q
  {
    UpMeans(x, q);
    var u := Up(x, q);
    assert u == q * (u / q);
    DivModUnique(x + q - 1, q, u / q, x + q - 1 - u);
  }

  method RoundUp(a: Word64, q: Word64, ghost k: nat) returns (ok: bool, r: Word64)
    requires q == Pow2(k)
    ensures ok <==> a + q - 1 < U64
    ensures ok ==> r == Up(a, q)
  {
    UpIsQuotient(a, q);
    MaskIsModulo(a + q - 1, k);
    ok, r := Add(a, q - 1);
    if ok { r := AndNot(r, q - 1); }
  }

  lemma {:induction false} AndSelf(x: nat)
    ensures And(x, x) == x
  {
    if x > 0 { AndSelf(x / 2); }
  }

  /** n & (n - 1) is 0 exactly for the powers of two. */
  lemma {:induction false} PowerTest(n: nat) returns (k: nat)
    requires n > 0
    ensures And(n, n - 1) == 0 ==> n == Pow2(k)
  {
    if n == 1 {
      k := 0;
    } else if n % 2 == 1 {
      AndSelf(n / 2);
      assert (n - 1) / 2 == n / 2 && And(n, n - 1) == 2 * And(n / 2, n / 2);
      k := 0;
    } else {
      assert (n - 1) / 2 == n / 2 - 1 && And(n, n - 1) == 2 * And(n / 2, n / 2 - 1);
      k := PowerTest(n / 2);
      k := k + 1;
    }
  }

  lemma {:induction false} PowerPasses(k: nat)
    ensures And(Pow2(k), Pow2(k) - 1) == 0
  {
    MaskIsModulo(Pow2(k), k);
    DivModUnique(Pow2(k), Pow2(k), 1, 0);
  }

  lemma {:induction false} Pow2Grows(a: nat, b: nat)
    requires a < b
    ensures Pow2(a) < Pow2(b)
  {
    if a + 1 < b { Pow2Grows(a, b - 1); }
  }

  lemma {:induction false} CapacityTest(n: nat)
    ensures 2 <= n <= 0x8000_0000 && And(n, n - 1) == 0 <==> Ring(n)
  {
    if 2 <= n <= 0x8000_0000 && And(n, n - 1) == 0 {
      var k := PowerTest(n);
      Pow2Of31();
      if k > 31 { Pow2Grows(31, k); }
    }
    if Ring(n) {
      var k: nat :| 1 <= k <= 31 && n == Pow2(k);
      PowerPasses(k);
      Pow2Of31();
      if k < 31 { Pow2Grows(k, 31); }
      if k > 1 { Pow2Grows(1, k); }
    }
  }

  lemma {:induction false} Pow2Of31()
    ensures Pow2(31) == 0x8000_0000
  {
    assert Pow2(8) == 256;
    assert Pow2(16) == 0x1_0000;
    assert Pow2(24) == 0x100_0000;
  }

  // ------------------------------------------------------------------ the header

  datatype Config = Config(
    profile: Word32, waitMode: Word32, checksumMode: Word32, capacity: Word64, maxPayload: Word32,
    producers: Word32, consumers: Word32, maxBacking: Word64)

  datatype Layout = Layout(
    endpoints: nat, participants: nat, participantStride: nat, descriptorStride: nat, entryStride: nat,
    qf: nat, qr: nat, descriptors: nat, payloads: nat, payloadStride: nat,
    segment: nat, ticketCeiling: nat, epochCeiling: nat, waitSlice: nat)

  predicate ConfigOk(c: Config) {
    && 2 <= c.capacity <= 0x8000_0000 && And(c.capacity, c.capacity - 1) == 0
    && 2 <= c.producers + c.consumers <= c.capacity
    && c.producers > 0 && c.consumers > 0 && c.maxPayload > 0
    && SPSC <= c.profile <= NCQ && c.waitMode <= PARKABLE && c.checksumMode <= CRC64
    && (c.profile == SPSC ==> c.producers == 1 && c.consumers == 1)
    && (c.profile == NCQ ==> c.waitMode == POLL_ONLY)
  }

  // The layout in unbounded arithmetic, region by region.

  function AfterParticipants(c: Config): nat { Up(QUANTUM + (c.producers + c.consumers) * PARTICIPANT, QUANTUM) }

  function AfterEntries(c: Config, from: nat): nat { Up(from + c.capacity * LINE, QUANTUM) }

  function DescriptorsAt(c: Config): nat {
    if c.profile == NCQ then AfterEntries(c, AfterEntries(c, AfterParticipants(c))) else AfterParticipants(c)
  }

  function PayloadsAt(c: Config): nat { AfterEntries(c, DescriptorsAt(c)) }

  function Stride(c: Config): nat { Up(c.maxPayload, LINE) }

  function SegmentBytes(c: Config): nat { Up(PayloadsAt(c) + BlockOffset(Stride(c), c.capacity), QUANTUM) }

  /** Offset of payload block b: el_payload's b * payload_stride. */
  function BlockOffset(stride: nat, b: nat): nat { if b == 0 then 0 else stride + BlockOffset(stride, b - 1) }

  lemma {:induction false} BlockOffsetIs(stride: nat, b: nat)
    ensures BlockOffset(stride, b) == b * stride
  {
    if b > 0 { BlockOffsetIs(stride, b - 1); }
  }

  function LayoutOf(c: Config): Layout {
    Layout(
      c.producers + c.consumers, QUANTUM, PARTICIPANT, LINE, if c.profile == NCQ then LINE else 0,
      if c.profile == NCQ then AfterParticipants(c) else 0,
      if c.profile == NCQ then AfterEntries(c, AfterParticipants(c)) else 0,
      DescriptorsAt(c), PayloadsAt(c), Stride(c),
      SegmentBytes(c), MAX64 - c.capacity, EPOCH_CEILING, if c.waitMode == PARKABLE then MAX_WAIT_SLICE else 0)
  }

  /** Exactly the configurations that have a layout the address space and the backing
      budget can hold. */
  predicate Accepted(c: Config) { ConfigOk(c) && SegmentBytes(c) <= c.maxBacking && SegmentBytes(c) <= MAX63 }

  lemma {:induction false} Ascending(c: Config)
    ensures QUANTUM + (c.producers + c.consumers) * PARTICIPANT <= AfterParticipants(c)
    ensures c.profile == NCQ ==>
      && AfterParticipants(c) + c.capacity * LINE <= AfterEntries(c, AfterParticipants(c))
      && AfterEntries(c, AfterParticipants(c)) + c.capacity * LINE <= DescriptorsAt(c)
    ensures DescriptorsAt(c) + c.capacity * LINE <= PayloadsAt(c)
    ensures PayloadsAt(c) <= PayloadsAt(c) + BlockOffset(Stride(c), c.capacity) <= SegmentBytes(c)
    ensures c.maxPayload <= Stride(c) < c.maxPayload + LINE
  {
    UpBounds(QUANTUM + (c.producers + c.consumers) * PARTICIPANT, QUANTUM);
    UpBounds(AfterParticipants(c) + c.capacity * LINE, QUANTUM);
    UpBounds(AfterEntries(c, AfterParticipants(c)) + c.capacity * LINE, QUANTUM);
    UpBounds(DescriptorsAt(c) + c.capacity * LINE, QUANTUM);
    UpBounds(PayloadsAt(c) + BlockOffset(Stride(c), c.capacity), QUANTUM);
    UpBounds(c.maxPayload, LINE);
  }

  lemma {:induction false} QuantumPower()
    ensures Pow2(14) == QUANTUM && Pow2(7) == LINE
  {
    assert Pow2(7) == 128;
  }

  /** Everything before the payloads is far below 2^64. */
  lemma {:induction false} OffsetsAreSmall(c: Config)
    requires c.producers + c.consumers <= c.capacity <= 0x8000_0000
    ensures AfterParticipants(c) < 0x100_0000_0000 && c.capacity * LINE <= 0x40_0000_0000
    ensures c.profile == NCQ ==> AfterEntries(c, AfterParticipants(c)) < 0x200_0000_0000
    ensures DescriptorsAt(c) < 0x300_0000_0000 && PayloadsAt(c) < 0x400_0000_0000
  {
    UpBounds(QUANTUM + (c.producers + c.consumers) * PARTICIPANT, QUANTUM);
    UpBounds(AfterParticipants(c) + c.capacity * LINE, QUANTUM);
    UpBounds(AfterEntries(c, AfterParticipants(c)) + c.capacity * LINE, QUANTUM);
    UpBounds(DescriptorsAt(c) + c.capacity * LINE, QUANTUM);
  }

  datatype Status = Ok | BadLayout | BadAbi | BadIdentity | Integrity | InvalidArgument

  class Header {
    const config: Config
    var layout: Layout

    constructor (config: Config, layout: Layout)
      ensures this.config == config && this.layout == layout
    {
      this.config := config;
      this.layout := layout;
    }

    /** One region of `size` bytes after offset `from`, rounded up to the quantum. */
    method Region(from: Word64, size: Word64) returns (ok: bool, r: Word64)
      ensures ok <==> from + size + QUANTUM - 1 < U64
      ensures ok ==> r == Up(from + size, QUANTUM)
    {
      QuantumPower();
      ok, r := Add(from, size);
      if ok { ok, r := RoundUp(r, QUANTUM, 14); }
    }

    /** The two arrays of queue entries. */
    method Entries(from: Word64, size: Word64) returns (ok: bool, r: Word64)
      modifies this`layout
      ensures ok <==> Up(from + size, QUANTUM) + size + QUANTUM - 1 < U64
      ensures ok ==> r == Up(Up(from + size, QUANTUM) + size, QUANTUM)
      ensures ok ==> layout == old(layout).(qf := from, qr := Up(from + size, QUANTUM))
    {
      UpMeans(from + size, QUANTUM);
      layout := layout.(qf := from);
      ok, r := Region(from, size);
      if !ok { return; }
      layout := layout.(qr := r);
      ok, r := Region(r, size);
    }

    method Geometry() returns (r: Status)
      modifies this`layout
      ensures r == Ok <==> Accepted(config)
      ensures r == Ok || r == BadLayout
      ensures r == Ok ==> layout == LayoutOf(config)
    {
      var n, k := config.capacity, config.producers + config.consumers;
      if !ConfigOk(config) { return BadLayout; }
      OffsetsAreSmall(config);
      QuantumPower();
      layout := layout.(endpoints := k, participants := QUANTUM, participantStride := PARTICIPANT,
                        descriptorStride := LINE, entryStride := if config.profile == NCQ then LINE else 0);
      var ok, stride, x, o;
      ok, stride := RoundUp(config.maxPayload, LINE, 7);
      layout := layout.(payloadStride := stride);
      ok, x := Mul(k, PARTICIPANT);
      if !ok { return BadLayout; }
      ok, o := Region(QUANTUM, x);
      if !ok { return BadLayout; }
      layout := layout.(qf := 0, qr := 0);
      ok, x := Mul(n, LINE);
      if !ok { return BadLayout; }
      if config.profile == NCQ {
        ok, o := Entries(o, x);
        if !ok { return BadLayout; }
      }
      layout := layout.(descriptors := o);
      ok, o := Region(o, x);
      if !ok { return BadLayout; }
      layout := layout.(payloads := o);
      r := Payloads(o, stride);
    }

    /** The last region, and the limits of the whole. */
    method Payloads(from: Word64, stride: Word64) returns (r: Status)
      requires ConfigOk(config) && from == PayloadsAt(config) && stride == Stride(config)
      requires layout == LayoutOf(config).(
        segment := layout.segment, ticketCeiling := layout.ticketCeiling,
        epochCeiling := layout.epochCeiling, waitSlice := layout.waitSlice)
      modifies this`layout
      ensures r == Ok <==> Accepted(config)
      ensures r == Ok || r == BadLayout
      ensures r == Ok ==> layout == LayoutOf(config)
    {
      Ascending(config);
      BlockOffsetIs(stride, config.capacity);
      var ok, x := Mul(config.capacity, stride);
      if !ok { return BadLayout; }
      var o;
      ok, o := Region(from, x);
      if !ok || o > config.maxBacking || o > MAX63 { return BadLayout; }
      layout := layout.(
        segment := o, ticketCeiling := MAX64 - config.capacity, epochCeiling := EPOCH_CEILING,
        waitSlice := if config.waitMode == PARKABLE then MAX_WAIT_SLICE else 0);
      return Ok;
    }
  }

  // ---------------------------------------------------------------- what it means

  datatype Span = Span(start: nat, size: nat)

  /** Header, participants, queue entries, descriptors and payloads, in order. */
  function Spans(c: Config): seq<Span> {
    var l := LayoutOf(c);
    [Span(0, 2048), Span(l.participants, l.endpoints * PARTICIPANT)]
    + (if c.profile == NCQ then [Span(l.qf, c.capacity * LINE), Span(l.qr, c.capacity * LINE)] else [])
    + [Span(l.descriptors, c.capacity * LINE), Span(l.payloads, BlockOffset(l.payloadStride, c.capacity))]
  }

  lemma {:induction false} UpAligned(x: nat)
    ensures Up(x, QUANTUM) % QUANTUM == 0
  {
    UpMeans(x, QUANTUM);
  }

  /** Each span starts on the quantum and ends before the next one, the last before
      `end`. */
  predicate Packed(s: seq<Span>, end: nat) {
    s == [] || (s[0].start % QUANTUM == 0
                && s[0].start + s[0].size <= (if |s| > 1 then s[1].start else end)
                && Packed(s[1..], end))
  }

  lemma {:induction false} PackedApart(s: seq<Span>, end: nat, i: nat, j: nat)
    requires Packed(s, end) && i <= j < |s|
    ensures s[i].start % QUANTUM == 0
    ensures s[0].start <= s[i].start && s[i].start + s[i].size <= (if i < j then s[j].start else end)
    ensures s[j].start <= end
  {
    if |s| > 1 {
      if i > 0 {
        PackedApart(s[1..], end, i - 1, j - 1);
      } else if j > 0 {
        PackedApart(s[1..], end, j - 1, j - 1);
        PackedApart(s[1..], end, 0, j - 1);
      } else {
        PackedApart(s[1..], end, 0, 0);
      }
    }
  }

  /** Spans in order: two at the front, none or two between, two at the end. */
  lemma {:induction false} PackedRow(a: Span, b: Span, entries: seq<Span>, d: Span, p: Span, end: nat)
    requires |entries| == 0 || |entries| == 2
    requires a.start % QUANTUM == 0 && b.start % QUANTUM == 0 && d.start % QUANTUM == 0 && p.start % QUANTUM == 0
    requires forall e :: e in entries ==> e.start % QUANTUM == 0
    requires a.start + a.size <= b.start && d.start + d.size <= p.start && p.start + p.size <= end
    requires b.start + b.size <= (if |entries| == 2 then entries[0].start else d.start)
    requires |entries| == 2 ==>
      entries[0].start + entries[0].size <= entries[1].start && entries[1].start + entries[1].size <= d.start
    ensures Packed([a, b] + entries + [d, p], end)
  {
    var rest := entries + [d, p];
    PackedPair([d, p], end);
    if |entries| == 2 {
      PackedFront(entries[1], [d, p], end);
      PackedFront(entries[0], [entries[1]] + [d, p], end);
      assert [entries[0]] + ([entries[1]] + [d, p]) == rest;
    } else {
      assert rest == [d, p];
    }
    PackedFront(b, rest, end);
    PackedFront(a, [b] + rest, end);
    assert [a] + ([b] + rest) == [a, b] + entries + [d, p];
  }

  lemma {:induction false} SpansPacked(c: Config)
    requires Accepted(c)
    ensures Packed(Spans(c), SegmentBytes(c))
  {
    var l := LayoutOf(c);
    Ascending(c);
    UpAligned(QUANTUM + l.endpoints * PARTICIPANT);
    UpAligned(AfterParticipants(c) + c.capacity * LINE);
    UpAligned(AfterEntries(c, AfterParticipants(c)) + c.capacity * LINE);
    UpAligned(DescriptorsAt(c) + c.capacity * LINE);
    PackedRow(Span(0, 2048), Span(l.participants, l.endpoints * PARTICIPANT),
              if c.profile == NCQ then [Span(l.qf, c.capacity * LINE), Span(l.qr, c.capacity * LINE)] else [],
              Span(l.descriptors, c.capacity * LINE), Span(l.payloads, BlockOffset(l.payloadStride, c.capacity)),
              l.segment);
  }

  lemma {:induction false} PackedPair(s: seq<Span>, end: nat)
    requires |s| == 2 && s[0].start % QUANTUM == 0 && s[1].start % QUANTUM == 0
    requires s[0].start + s[0].size <= s[1].start && s[1].start + s[1].size <= end
    ensures Packed(s, end)
  {
    assert Packed(s[1..][1..], end);
    assert Packed(s[1..], end);
  }

  lemma {:induction false} PackedFront(x: Span, s: seq<Span>, end: nat)
    requires s != [] && Packed(s, end) && x.start % QUANTUM == 0 && x.start + x.size <= s[0].start
    ensures Packed([x] + s, end)
  {
    assert ([x] + s)[1..] == s;
  }

  /** The regions start on the quantum, follow one another without overlap and end
      inside the segment, which is within the backing budget. */
  lemma {:induction false} RegionsAreDisjoint(c: Config, i: nat, j: nat)
    requires Accepted(c) && i < j < |Spans(c)|
    ensures Spans(c)[i].start % QUANTUM == 0 && Spans(c)[j].start % QUANTUM == 0
    ensures Spans(c)[i].start + Spans(c)[i].size <= Spans(c)[j].start
    ensures Spans(c)[j].start + Spans(c)[j].size <= LayoutOf(c).segment <= c.maxBacking
  {
    SpansPacked(c);
    PackedApart(Spans(c), SegmentBytes(c), i, j);
    PackedApart(Spans(c), SegmentBytes(c), j, j);
  }

  lemma {:induction false} LineAligned(x: nat)
    requires x % QUANTUM == 0
    ensures x % LINE == 0
  {
  }

  lemma {:induction false} BlockOffsetGrows(stride: nat, a: nat, b: nat)
    requires a < b
    ensures BlockOffset(stride, a) + stride <= BlockOffset(stride, b)
  {
    if a + 1 < b { BlockOffsetGrows(stride, a, b - 1); }
  }

  lemma {:induction false} BlockOffsetAligned(stride: nat, b: nat)
    requires stride % LINE == 0
    ensures BlockOffset(stride, b) % LINE == 0
  {
    if b > 0 { BlockOffsetAligned(stride, b - 1); }
  }

  lemma {:induction false} BlockSpans(c: Config, a: nat, b: nat)
    requires Accepted(c) && a < b < c.capacity
    ensures BlockOffset(Stride(c), a) + c.maxPayload <= BlockOffset(Stride(c), b)
    ensures PayloadsAt(c) + BlockOffset(Stride(c), b) + c.maxPayload <= SegmentBytes(c)
    ensures BlockOffset(Stride(c), a) % LINE == 0 && PayloadsAt(c) % LINE == 0
  {
    Ascending(c);
    UpMeans(c.maxPayload, LINE);
    UpAligned(DescriptorsAt(c) + c.capacity * LINE);
    LineAligned(PayloadsAt(c));
    BlockOffsetGrows(Stride(c), a, b);
    BlockOffsetGrows(Stride(c), b, c.capacity);
    BlockOffsetAligned(Stride(c), a);
  }

  /** Two payload blocks never share a byte, each lies in the segment on its own lines. */
  lemma {:induction false} BlocksAreDisjoint(c: Config, a: nat, b: nat)
    requires Accepted(c) && a < b < c.capacity
    ensures var l := LayoutOf(c);
      && l.payloads + a * l.payloadStride + c.maxPayload <= l.payloads + b * l.payloadStride
      && l.payloads + b * l.payloadStride + c.maxPayload <= l.segment
      && l.payloads % LINE == 0 && (a * l.payloadStride) % LINE == 0
  {
    BlockSpans(c, a, b);
    BlockOffsetIs(Stride(c), a);
    BlockOffsetIs(Stride(c), b);
  }

  function Ru(x: nat): nat { (x + 16383) / 16384 * 16384 }

  /** geometry() of tools/verify_matrix_results.py. */
  function MatrixGeometry(ncq: bool, n: nat, payload: nat, k: nat): nat {
    MatrixEnd(ncq, n, k, n * ((payload + 127) / 128) * 128)
  }

  function MatrixEnd(ncq: bool, n: nat, k: nat, bytes: nat): nat {
    var o := Ru(16384 + 256 * k);
    var p := if ncq then Ru(Ru(o + 128 * n) + 128 * n) else o;
    Ru(Ru(p + 128 * n) + bytes)
  }

  lemma {:induction false} RuIsUp(x: nat)
    ensures Ru(x) == Up(x, QUANTUM)
  {
    UpIsQuotient(x, QUANTUM);
  }

  lemma {:induction false} StrideIs(c: Config)
    ensures BlockOffset(Stride(c), c.capacity) == c.capacity * ((c.maxPayload + 127) / 128) * 128
  {
    var q := (c.maxPayload + 127) / 128;
    UpIsQuotient(c.maxPayload, LINE);
    BlockOffsetIs(q * 128, c.capacity);
    Reassociate(c.capacity, q);
  }

  /** The two formulas agree on every admissible configuration. */
  lemma {:induction false} MatrixGeometryAgrees(c: Config)
    requires ConfigOk(c)
    ensures SegmentBytes(c) == MatrixGeometry(c.profile == NCQ, c.capacity, c.maxPayload, c.producers + c.consumers)
  {
    StrideIs(c);
    MatrixEndAgrees(c);
  }

  lemma {:induction false} EntriesAgree(c: Config, from: nat)
    ensures Ru(from + 128 * c.capacity) == AfterEntries(c, from)
  {
    RuIsUp(from + 128 * c.capacity);
  }

  lemma {:induction false} ParticipantsAgree(c: Config)
    ensures Ru(16384 + 256 * (c.producers + c.consumers)) == AfterParticipants(c)
  {
    RuIsUp(16384 + 256 * (c.producers + c.consumers));
  }

  lemma {:induction false} MatrixEndAgrees(c: Config)
    ensures SegmentBytes(c) ==
      MatrixEnd(c.profile == NCQ, c.capacity, c.producers + c.consumers, BlockOffset(Stride(c), c.capacity))
  {
    ParticipantsAgree(c);
    EntriesAgree(c, AfterParticipants(c));
    EntriesAgree(c, AfterEntries(c, AfterParticipants(c)));
    EntriesAgree(c, DescriptorsAt(c));
    RuIsUp(PayloadsAt(c) + BlockOffset(Stride(c), c.capacity));
  }

  lemma {:induction false} Reassociate(n: nat, q: nat)
    ensures n * (q * 128) == n * q * 128
  {
  }

  /** What an accepted header guarantees the queues: a power-of-two capacity from 2 to
      2^31, at most one endpoint per block, and room below the ticket ceiling. */
  lemma {:induction false} AcceptedCapacity(c: Config)
    requires Accepted(c)
    ensures Ring(c.capacity) && LayoutOf(c).endpoints <= c.capacity
    ensures LayoutOf(c).ticketCeiling + c.capacity == MAX64
    ensures LayoutOf(c).epochCeiling * 4 + 3 < U64
  {
    CapacityTest(c.capacity);
  }
}
