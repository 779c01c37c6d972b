/** The binary index format of src/core/storage/IndexSerializer.cpp: Serialize, and Load over the
    file's bytes. */
module IndexSerializer {
  import opened Common
  import opened Tokens
  import opened IndexPools
  import Crc32

  const MAGIC: u32 := 0x4458_4449
  const VERSION: u16 := 1
  const HEADER_SIZE := 26
  const RECORD_SIZE := 34

  // ----- Fixed-width little-endian integers -----

  /** 256^k. */
  function Range(k: nat): (r: nat)
    ensures r > 0
  {
    if k == 0 then 1 else 256 * Range(k - 1)
  }

  function LittleEndian(n: nat, k: nat): (bytes: Text)
    ensures |bytes| == k
  {
    if k == 0 then [] else [(n % 256) as char] + LittleEndian(n / 256, k - 1)
  }

  function FromLittleEndian(bytes: Text): nat {
    if |bytes| == 0 then 0 else bytes[0] as int + 256 * FromLittleEndian(bytes[1..])
  }

  lemma {:induction false} FromLittleEndianBound(bytes: Text)
    ensures FromLittleEndian(bytes) < Range(|bytes|)
  {
    if |bytes| > 0 {
      FromLittleEndianBound(bytes[1..]);
    }
  }

  lemma {:induction false} DecodeEncode(n: nat, k: nat)
    requires n < Range(k)
    ensures FromLittleEndian(LittleEndian(n, k)) == n
  {
    if k > 0 {
      DecodeEncode(n / 256, k - 1);
      assert LittleEndian(n, k)[1..] == LittleEndian(n / 256, k - 1);
    }
  }

  lemma {:induction false} EncodeDecode(bytes: Text)
    ensures LittleEndian(FromLittleEndian(bytes), |bytes|) == bytes
  {
    if |bytes| > 0 {
      EncodeDecode(bytes[1..]);
      assert FromLittleEndian(bytes) / 256 == FromLittleEndian(bytes[1..]);
      assert bytes == [bytes[0]] + bytes[1..];
    }
  }

  lemma Widths()
    ensures Range(2) == TWO_16 && Range(4) == TWO_32 && Range(8) == TWO_64
  {
    assert Range(4) == TWO_32;
    assert Range(6) == 0x1_0000_0000_0000;
  }

  function CrcValue(w: bv32): (n: int)
    ensures 0 <= n < TWO_32
  {
    w as int
  }

  function CrcWord(n: u32): bv32 {
    n as bv32
  }

  lemma CrcValueBack(w: bv32)
    ensures CrcWord(CrcValue(w)) == w
  {
  }

  lemma CrcValueInjective(v: bv32, w: bv32)
    requires CrcValue(v) == CrcValue(w)
    ensures v == w
  {
    hide CrcValue, CrcWord;
    CrcValueBack(v);
    CrcValueBack(w);
  }

  // ----- The format, as a printer -----

  datatype Record = Record(
    size: u64, lastModified: u64, attributes: u32, pathOffset: nat, pathLen: u32, nameStart: u16)

  /** Everything an index file says. */
  datatype Image = Image(build: u64, stop: u64, records: seq<Record>, pathPool: Text)

  function RecordBytes(r: Record): (bytes: Text)
    ensures |bytes| == RECORD_SIZE
  {
    LittleEndian(r.size, 8) + LittleEndian(r.lastModified, 8) + LittleEndian(r.attributes, 4) +
    LittleEndian(r.pathOffset, 8) + LittleEndian(r.pathLen, 4) + LittleEndian(r.nameStart, 2)
  }

  function RecordsBytes(records: seq<Record>): (bytes: Text)
    ensures |bytes| == RECORD_SIZE * |records|
  {
    if |records| == 0 then []
    else RecordsBytes(records[..|records| - 1]) + RecordBytes(records[|records| - 1])
  }

  /** The part of the file that the checksum covers. */
  function Body(i: Image): Text {
    LittleEndian(|i.pathPool|, 8) + i.pathPool + RecordsBytes(i.records) + LittleEndian(i.stop, 8)
  }

  function Header(build: u64, count: nat, crc: int): (bytes: Text)
    requires 0 <= crc
    ensures |bytes| == HEADER_SIZE
  {
    LittleEndian(MAGIC, 4) + LittleEndian(VERSION, 2) + LittleEndian(build, 8) +
    LittleEndian(count, 8) + LittleEndian(crc, 4)
  }

  function Render(i: Image): Text {
    Header(i.build, |i.records|, CrcValue(Crc32.Checksum(Body(i)))) + Body(i)
  }

  /** Every record's slices are inside the path pool, and every count fits its field. */
  ghost predicate WellFormed(i: Image) {
    && |i.records| < TWO_64 && |i.pathPool| < TWO_64
    && forall k :: 0 <= k < |i.records| ==> RecordFits(i.records[k], |i.pathPool|)
  }

  predicate RecordFits(r: Record, poolSize: nat) {
    r.pathOffset <= poolSize && r.pathLen <= poolSize - r.pathOffset && r.nameStart <= r.pathLen
  }

  /** What Load must answer: the image whose rendering these bytes are, if there is one. */
  ghost predicate IsLoadResult(bytes: Text, result: Option<Image>) {
    match result
    case Some(i) => WellFormed(i) && bytes == Render(i)
    case None => forall i :: WellFormed(i) ==> bytes != Render(i)
  }

  // ----- Serialize -----

  /** The path bytes of the live entries among the first n. */
  function LivePaths(p: Pool, n: nat): Text
    requires ValidPool(p) && n <= |p.meta|
  {
    if n == 0 then []
    else if p.meta[n - 1].deleted then LivePaths(p, n - 1)
    else assert InRange(p, n - 1); LivePaths(p, n - 1) + PathOf(p.meta[n - 1], p.pathPool)
  }

  /** The records of the live entries among the first n, their paths compacted. */
  function LiveRecords(p: Pool, n: nat): seq<Record>
    requires ValidPool(p) && n <= |p.meta|
  {
    if n == 0 then []
    else if p.meta[n - 1].deleted then LiveRecords(p, n - 1)
    else
      var m := p.meta[n - 1];
      LiveRecords(p, n - 1)
      + [Record(m.size, m.lastModified, m.attributes, |LivePaths(p, n - 1)|, m.pathLen, m.nameStart)]
  }

  function LiveImage(p: Pool, build: u64, stop: u64): Image
    requires ValidPool(p)
  {
    Image(build, stop, LiveRecords(p, |p.meta|), LivePaths(p, |p.meta|))
  }

  method Serialize(pool: IndexPool, buildTimestampNs: u64, lastMonitorStopNs: u64) returns (bytes: Text)
    requires pool.Valid()
    ensures bytes == Render(LiveImage(pool.Rep(), buildTimestampNs, lastMonitorStopNs))
  {
    hide LittleEndian, ValidPool, LiveRecords, LivePaths;
    ghost var image := LiveImage(pool.Rep(), buildTimestampNs, lastMonitorStopNs);
    var liveCount, livePathBytes := CountLive(pool);
    var body := LittleEndian(livePathBytes, 8);
    body := AppendPaths(pool, body);
    body := AppendRecords(pool, body);
    body := body + LittleEndian(lastMonitorStopNs, 8);
    assert body == Body(image);

    var crc := Crc32.Crc32(body);
    bytes := LittleEndian(MAGIC, 4);
    bytes := bytes + LittleEndian(VERSION, 2);
    bytes := bytes + LittleEndian(buildTimestampNs, 8);
    bytes := bytes + LittleEndian(liveCount, 8);
    bytes := bytes + LittleEndian(CrcValue(crc), 4);
    assert bytes == Header(image.build, |image.records|, CrcValue(crc));
    bytes := bytes + body;
  }

  method CountLive(pool: IndexPool) returns (liveCount: nat, livePathBytes: nat)
    requires pool.Valid()
    ensures liveCount == |LiveRecords(pool.Rep(), |pool.meta|)|
    ensures livePathBytes == |LivePaths(pool.Rep(), |pool.meta|)|
  {
    liveCount, livePathBytes := 0, 0;
    for i := 0 to |pool.meta|
      invariant liveCount == |LiveRecords(pool.Rep(), i)|
      invariant livePathBytes == |LivePaths(pool.Rep(), i)|
    {
      assert InRange(pool.Rep(), i);
      if !pool.meta[i].deleted {
        liveCount := liveCount + 1;
        livePathBytes := livePathBytes + pool.meta[i].pathLen;
      }
    }
  }

  method AppendPaths(pool: IndexPool, start: Text) returns (body: Text)
    requires pool.Valid()
    ensures body == start + LivePaths(pool.Rep(), |pool.meta|)
  {
    body := start;
    for i := 0 to |pool.meta|
      invariant body == start + LivePaths(pool.Rep(), i)
    {
      assert InRange(pool.Rep(), i);
      var m := pool.meta[i];
      if !m.deleted {
        body := body + pool.pathPool[m.pathOffset..m.pathOffset + m.pathLen];
      }
    }
  }

  method AppendRecords(pool: IndexPool, start: Text) returns (body: Text)
    requires pool.Valid()
    ensures body == start + RecordsBytes(LiveRecords(pool.Rep(), |pool.meta|))
  {
    hide LittleEndian, RecordsBytes;
    RecordsBytesEmpty();
    body := start;
    var pathOffset := 0;
    for i := 0 to |pool.meta|
      invariant pathOffset == |LivePaths(pool.Rep(), i)|
      invariant body == start + RecordsBytes(LiveRecords(pool.Rep(), i))
    {
      assert InRange(pool.Rep(), i);
      var m := pool.meta[i];
      if !m.deleted {
        ghost var before := body;
        body := body + LittleEndian(m.size, 8);
        body := body + LittleEndian(m.lastModified, 8);
        body := body + LittleEndian(m.attributes, 4);
        body := body + LittleEndian(pathOffset, 8);
        body := body + LittleEndian(m.pathLen, 4);
        body := body + LittleEndian(m.nameStart, 2);
        ghost var r := Record(m.size, m.lastModified, m.attributes, pathOffset, m.pathLen, m.nameStart);
        assert body == before + RecordBytes(r);
        RecordsBytesAppend(LiveRecords(pool.Rep(), i), r);
        pathOffset := pathOffset + m.pathLen;
      }
    }
  }

  lemma RecordsBytesEmpty()
    ensures RecordsBytes([]) == []
  {
  }

  lemma RecordsBytesAppend(records: seq<Record>, r: Record)
    ensures RecordsBytes(records + [r]) == RecordsBytes(records) + RecordBytes(r)
  {
    assert (records + [r])[..|records|] == records;
  }

  // ----- The format, as a reader of fixed offsets -----

  /** The k-byte integer at an offset. */
  function Field(b: Text, offset: nat, k: nat): (n: nat)
    requires offset + k <= |b|
    ensures n < Range(k)
    ensures k == 2 ==> n < TWO_16
    ensures k == 4 ==> n < TWO_32
    ensures k == 8 ==> n < TWO_64
  {
    FromLittleEndianBound(b[offset..offset + k]);
    Widths();
    FromLittleEndian(b[offset..offset + k])
  }

  function RecordAt(b: Text, offset: nat): Record
    requires offset + RECORD_SIZE <= |b|
  {
    Record(Field(b, offset, 8), Field(b, offset + 8, 8), Field(b, offset + 16, 4),
           Field(b, offset + 20, 8), Field(b, offset + 28, 4), Field(b, offset + 32, 2))
  }

  function RecordsAt(b: Text, offset: nat, n: nat): (records: seq<Record>)
    requires offset + RECORD_SIZE * n <= |b|
    ensures |records| == n
  {
    if n == 0 then [] else RecordsAt(b, offset, n - 1) + [RecordAt(b, offset + RECORD_SIZE * (n - 1))]
  }

  /** The file has the size its header and path pool size announce. */
  predicate SizesAgree(b: Text) {
    && |b| >= HEADER_SIZE + 8
    && |b| == HEADER_SIZE + 16 + Field(b, HEADER_SIZE, 8) + RECORD_SIZE * Field(b, 14, 8)
  }

  function Decode(b: Text): Image
    requires SizesAgree(b)
  {
    var poolSize, count := Field(b, HEADER_SIZE, 8), Field(b, 14, 8);
    Image(Field(b, 6, 8), Field(b, |b| - 8, 8), RecordsAt(b, HEADER_SIZE + 8 + poolSize, count),
          b[HEADER_SIZE + 8..HEADER_SIZE + 8 + poolSize])
  }

  predicate Accepts(b: Text) {
    && SizesAgree(b)
    && Field(b, 0, 4) == MAGIC && Field(b, 4, 2) == VERSION
    && Field(b, 22, 4) == CrcValue(Crc32.Checksum(b[HEADER_SIZE..]))
    && forall k :: 0 <= k < |Decode(b).records| ==> RecordFits(Decode(b).records[k], |Decode(b).pathPool|)
  }

  lemma FieldBytes(b: Text, offset: nat, k: nat)
    requires offset + k <= |b|
    ensures LittleEndian(Field(b, offset, k), k) == b[offset..offset + k]
  {
    EncodeDecode(b[offset..offset + k]);
  }

  lemma RecordAtBytes(b: Text, offset: nat)
    requires offset + RECORD_SIZE <= |b|
    ensures RecordBytes(RecordAt(b, offset)) == b[offset..offset + RECORD_SIZE]
  {
    hide LittleEndian, Field;
    FieldBytes(b, offset, 8);
    FieldBytes(b, offset + 8, 8);
    FieldBytes(b, offset + 16, 4);
    FieldBytes(b, offset + 20, 8);
    FieldBytes(b, offset + 28, 4);
    FieldBytes(b, offset + 32, 2);
  }

  lemma {:induction false} RecordsAtBytes(b: Text, offset: nat, n: nat)
    requires offset + RECORD_SIZE * n <= |b|
    ensures RecordsBytes(RecordsAt(b, offset, n)) == b[offset..offset + RECORD_SIZE * n]
  {
    hide RecordAt, RecordBytes;
    if n > 0 {
      var last := offset + RECORD_SIZE * (n - 1);
      var before, r := RecordsAt(b, offset, n - 1), RecordAt(b, last);
      assert RecordsAt(b, offset, n) == before + [r];
      hide RecordsAt, RecordsBytes;
      RecordsAtBytes(b, offset, n - 1);
      RecordAtBytes(b, last);
      RecordsBytesAppend(before, r);
      SliceBetween(b, offset, last, last + RECORD_SIZE);
    }
  }

  lemma DecodedBody(b: Text)
    requires SizesAgree(b)
    ensures Body(Decode(b)) == b[HEADER_SIZE..]
  {
    hide LittleEndian, RecordsBytes, RecordsAt, Field;
    var poolSize, count := Field(b, HEADER_SIZE, 8), Field(b, 14, 8);
    var records := HEADER_SIZE + 8 + poolSize;
    FieldBytes(b, HEADER_SIZE, 8);
    FieldBytes(b, |b| - 8, 8);
    RecordsAtBytes(b, records, count);
    assert b[HEADER_SIZE..] == b[HEADER_SIZE..HEADER_SIZE + 8] + b[HEADER_SIZE + 8..records] +
                               b[records..|b| - 8] + b[|b| - 8..|b|];
  }

  lemma DecodedHeader(b: Text, crc: nat)
    requires |b| >= HEADER_SIZE
    requires Field(b, 0, 4) == MAGIC && Field(b, 4, 2) == VERSION && Field(b, 22, 4) == crc
    ensures Header(Field(b, 6, 8), Field(b, 14, 8), crc) == b[..HEADER_SIZE]
  {
    hide LittleEndian, Field, Range;
    FieldBytes(b, 0, 4);
    FieldBytes(b, 4, 2);
    FieldBytes(b, 6, 8);
    FieldBytes(b, 14, 8);
    FieldBytes(b, 22, 4);
    assert b[..HEADER_SIZE] == b[0..4] + b[4..6] + b[6..14] + b[14..22] + b[22..26];
  }

  /** Whatever Load accepts is the rendering of a well-formed image, down to the last byte. */
  lemma DecodeSound(b: Text)
    requires Accepts(b)
    ensures WellFormed(Decode(b)) && Render(Decode(b)) == b
  {
    var crc := CrcValue(Crc32.Checksum(b[HEADER_SIZE..]));
    hide Body, Header, CrcValue;
    DecodedBody(b);
    DecodedHeader(b, crc);
    assert b == b[..HEADER_SIZE] + b[HEADER_SIZE..];
  }

  // Completeness: a rendering is read back field by field.

  lemma FieldOf(b: Text, offset: nat, k: nat, n: nat)
    requires offset + k <= |b| && b[offset..offset + k] == LittleEndian(n, k) && n < Range(k)
    ensures Field(b, offset, k) == n
  {
    DecodeEncode(n, k);
  }

  lemma RecordOf(b: Text, offset: nat, r: Record)
    requires offset + RECORD_SIZE <= |b| && b[offset..offset + RECORD_SIZE] == RecordBytes(r)
    requires r.pathOffset < TWO_64
    ensures RecordAt(b, offset) == r
  {
    Widths();
    var bytes := RecordBytes(r);
    hide LittleEndian, Range;
    assert b[offset..offset + 8] == bytes[..8] == LittleEndian(r.size, 8);
    assert b[offset + 8..offset + 16] == bytes[8..16] == LittleEndian(r.lastModified, 8);
    assert b[offset + 16..offset + 20] == bytes[16..20] == LittleEndian(r.attributes, 4);
    assert b[offset + 20..offset + 28] == bytes[20..28] == LittleEndian(r.pathOffset, 8);
    assert b[offset + 28..offset + 32] == bytes[28..32] == LittleEndian(r.pathLen, 4);
    assert b[offset + 32..offset + 34] == bytes[32..34] == LittleEndian(r.nameStart, 2);
    FieldOf(b, offset, 8, r.size);
    FieldOf(b, offset + 8, 8, r.lastModified);
    FieldOf(b, offset + 16, 4, r.attributes);
    FieldOf(b, offset + 20, 8, r.pathOffset);
    FieldOf(b, offset + 28, 4, r.pathLen);
    FieldOf(b, offset + 32, 2, r.nameStart);
  }

  /** A rendered list of records in a file, cut before its last record. */
  lemma RecordsOfSlices(b: Text, offset: nat, last: nat, to: nat, but: seq<Record>, r: Record)
    requires last == offset + RECORD_SIZE * |but| && to == last + RECORD_SIZE && to <= |b|
    requires b[offset..to] == RecordsBytes(but + [r])
    ensures b[offset..last] == RecordsBytes(but) && b[last..to] == RecordBytes(r)
  {
    hide RecordBytes, RecordsBytes;
    RecordsBytesAppend(but, r);
    SliceParts(b, offset, RecordsBytes(but), RecordBytes(r));
  }

  lemma {:induction false} RecordsOf(b: Text, offset: nat, records: seq<Record>)
    requires offset + RECORD_SIZE * |records| <= |b|
    requires b[offset..offset + RECORD_SIZE * |records|] == RecordsBytes(records)
    requires forall k :: 0 <= k < |records| ==> records[k].pathOffset < TWO_64
    ensures RecordsAt(b, offset, |records|) == records
    decreases |records|
  {
    hide RecordAt, RecordBytes, RecordsBytes;
    if |records| > 0 {
      var n := |records| - 1;
      var last := offset + RECORD_SIZE * n;
      assert records == records[..n] + [records[n]];
      RecordsOfSlices(b, offset, last, last + RECORD_SIZE, records[..n], records[n]);
      RecordsOf(b, offset, records[..n]);
      RecordOf(b, last, records[n]);
    }
  }

  lemma BodyShape(i: Image)
    requires WellFormed(i)
    ensures var b, P := Body(i), |i.pathPool|;
      && |b| == 16 + P + RECORD_SIZE * |i.records|
      && b[..8] == LittleEndian(P, 8) && b[8..8 + P] == i.pathPool
      && b[8 + P..|b| - 8] == RecordsBytes(i.records) && b[|b| - 8..] == LittleEndian(i.stop, 8)
  {
    hide LittleEndian, RecordsBytes;
  }

  lemma HeaderShape(build: u64, count: nat, crc: int)
    requires 0 <= crc
    ensures var h := Header(build, count, crc);
      && h[0..4] == LittleEndian(MAGIC, 4) && h[4..6] == LittleEndian(VERSION, 2)
      && h[6..14] == LittleEndian(build, 8) && h[14..22] == LittleEndian(count, 8)
      && h[22..26] == LittleEndian(crc, 4)
  {
    hide LittleEndian;
  }

  lemma RenderedHeader(i: Image)
    requires WellFormed(i)
    ensures var b, crc := Render(i), CrcValue(Crc32.Checksum(Body(i)));
      && |b| >= HEADER_SIZE && b[HEADER_SIZE..] == Body(i)
      && Field(b, 0, 4) == MAGIC && Field(b, 4, 2) == VERSION && Field(b, 6, 8) == i.build
      && Field(b, 14, 8) == |i.records| && Field(b, 22, 4) == crc
  {
    hide LittleEndian, Body, Header, Range, CrcValue, Field;
    var crc, n := CrcValue(Crc32.Checksum(Body(i))), |i.records|;
    var b, h := Render(i), Header(i.build, n, crc);
    HeaderShape(i.build, n, crc);
    Widths();
    assert b[0..4] == h[0..4] && b[4..6] == h[4..6] && b[6..14] == h[6..14];
    assert b[14..22] == h[14..22] && b[22..26] == h[22..26];
    FieldOf(b, 0, 4, MAGIC);
    FieldOf(b, 4, 2, VERSION);
    FieldOf(b, 6, 8, i.build);
    FieldOf(b, 14, 8, n);
    FieldOf(b, 22, 4, crc);
  }

  lemma InBody(b: Text, body: Text, from: nat, to: nat)
    requires |b| >= HEADER_SIZE && b[HEADER_SIZE..] == body && from <= to <= |body|
    ensures b[HEADER_SIZE + from..HEADER_SIZE + to] == body[from..to]
  {
    assert b[HEADER_SIZE..|b|] == body;
    SliceOfSlice(b, HEADER_SIZE, |b|, from, to);
  }

  lemma RenderedBody(i: Image)
    requires WellFormed(i)
    ensures SizesAgree(Render(i)) && Decode(Render(i)) == i
  {
    hide LittleEndian, Body, Header, RecordsAt, RecordsBytes, Range, CrcValue, Field, Render;
    var b, body, P, n := Render(i), Body(i), |i.pathPool|, |i.records|;
    RenderedHeader(i);
    BodyShape(i);
    Widths();
    assert |b| == HEADER_SIZE + |body|;
    InBody(b, body, 0, 8);
    InBody(b, body, 8, 8 + P);
    InBody(b, body, 8 + P, |body| - 8);
    InBody(b, body, |body| - 8, |body|);
    FieldOf(b, HEADER_SIZE, 8, P);
    FieldOf(b, |b| - 8, 8, i.stop);
    RecordsOf(b, HEADER_SIZE + 8 + P, i.records);
  }

  /** Load accepts every rendering of a well-formed image and reads back that image. */
  lemma DecodeComplete(i: Image)
    requires WellFormed(i)
    ensures Accepts(Render(i)) && Decode(Render(i)) == i
  {
    hide Render, Body, SizesAgree, Decode, Field, CrcValue;
    RenderedHeader(i);
    RenderedBody(i);
  }

  /** The layout of docs/adr/0003-binary-index-format.md, byte by byte: where each field of a file is and
      how wide it is, the four letters it begins with, and what the checksum covers. */
  lemma FileLayout(i: Image)
    requires WellFormed(i)
    ensures var b, P := Render(i), |i.pathPool|;
      && |b| == 42 + P + 34 * |i.records|
      && b[..4] == "IDXD" && b[4] as int == 1 && b[5] as int == 0
      && Field(b, 6, 8) == i.build && Field(b, 14, 8) == |i.records|
      && Field(b, 22, 4) == CrcValue(Crc32.Checksum(b[26..]))
      && Field(b, 26, 8) == P && b[34..34 + P] == i.pathPool && Field(b, |b| - 8, 8) == i.stop
    ensures forall k :: 0 <= k < |i.records| ==> RecordLaid(Render(i), 34 + |i.pathPool| + 34 * k, i.records[k])
  {
    hide Render, Body, Field, CrcValue, RecordsAt, LittleEndian;
    DecodeComplete(i);
    var b, P := Render(i), |i.pathPool|;
    FirstBytes(b);
    forall k | 0 <= k < |i.records| ensures RecordLaid(b, 34 + P + 34 * k, i.records[k]) {
      RecordsAtPrefix(b, 34 + P, |i.records|, k);
    }
  }

  /** The fields of one record. */
  predicate RecordLaid(b: Text, at: nat, r: Record) {
    && at + 34 <= |b|
    && Field(b, at, 8) == r.size && Field(b, at + 8, 8) == r.lastModified && Field(b, at + 16, 4) == r.attributes
    && Field(b, at + 20, 8) == r.pathOffset && Field(b, at + 28, 4) == r.pathLen && Field(b, at + 32, 2) == r.nameStart
  }

  lemma FirstBytes(b: Text)
    requires |b| >= 6 && Field(b, 0, 4) == MAGIC && Field(b, 4, 2) == VERSION
    ensures b[..4] == "IDXD" && b[4] as int == 1 && b[5] as int == 0
  {
    FieldBytes(b, 0, 4);
    FieldBytes(b, 4, 2);
    MagicBytes();
    hide Field, LittleEndian;
    assert b[4] == b[4..6][0] && b[5] == b[4..6][1];
  }

  lemma MagicBytes()
    ensures LittleEndian(MAGIC, 4) == "IDXD"
    ensures LittleEndian(VERSION, 2)[0] as int == 1 && LittleEndian(VERSION, 2)[1] as int == 0
  {
    assert MAGIC % 256 == 0x49 && MAGIC / 256 == 0x44_5844;
    assert LittleEndian(0x44_5844, 3) == "DXD";
  }

  /** Accepting exactly the renderings of well-formed images is all that Load can do. */
  lemma AcceptedExactly(b: Text)
    ensures IsLoadResult(b, if Accepts(b) then Some(Decode(b)) else None)
  {
    hide Render, Accepts, Decode, WellFormed;
    if Accepts(b) {
      DecodeSound(b);
    } else {
      forall i | WellFormed(i) ensures b != Render(i) {
        DecodeComplete(i);
      }
    }
  }

  // ----- Load -----

  method ReadValue(buffer: Text, offset: nat, k: nat) returns (ok: bool, value: nat, next: nat)
    requires offset <= |buffer|
    ensures ok <==> offset + k <= |buffer|
    ensures ok ==> value == Field(buffer, offset, k) && next == offset + k
    ensures !ok ==> next == offset
  {
    if offset + k > |buffer| {
      return false, 0, offset;
    }
    return true, Field(buffer, offset, k), offset + k;
  }

  method ReadRecord(buffer: Text, offset: nat) returns (ok: bool, record: Record, next: nat)
    requires offset <= |buffer|
    ensures ok <==> offset + RECORD_SIZE <= |buffer|
    ensures ok ==> record == RecordAt(buffer, offset) && next == offset + RECORD_SIZE
  {
    hide Field;
    record, next := Record(0, 0, 0, 0, 0, 0), offset;
    var size, lastModified, attributes, pathOffset, pathLen, nameStart;
    ok, size, next := ReadValue(buffer, next, 8);
    if !ok { return; }
    ok, lastModified, next := ReadValue(buffer, next, 8);
    if !ok { return; }
    ok, attributes, next := ReadValue(buffer, next, 4);
    if !ok { return; }
    ok, pathOffset, next := ReadValue(buffer, next, 8);
    if !ok { return; }
    ok, pathLen, next := ReadValue(buffer, next, 4);
    if !ok { return; }
    ok, nameStart, next := ReadValue(buffer, next, 2);
    if !ok { return; }
    record := Record(size, lastModified, attributes, pathOffset, pathLen, nameStart);
  }

  /** Load's validation of arbitrary bytes. */
  method ReadImage(buffer: Text) returns (result: Option<Image>)
    ensures result == if Accepts(buffer) then Some(Decode(buffer)) else None
    ensures IsLoadResult(buffer, result)
  {
    AcceptedExactly(buffer);
    hide Field, RecordAt, RecordFits, CrcValue, IsLoadResult;
    var ok, magic, version, build, entryCount, crc, offset;
    ok, magic, offset := ReadValue(buffer, 0, 4);
    if !ok { return None; }
    ok, version, offset := ReadValue(buffer, offset, 2);
    if !ok { return None; }
    ok, build, offset := ReadValue(buffer, offset, 8);
    if !ok { return None; }
    ok, entryCount, offset := ReadValue(buffer, offset, 8);
    if !ok { return None; }
    ok, crc, offset := ReadValue(buffer, offset, 4);
    if !ok { return None; }
    if magic != MAGIC || version != VERSION {
      return None;
    }
    var checksum := Crc32.Crc32(buffer[offset..]);
    if CrcValue(checksum) != crc {
      return None;
    }
    var pathPoolSize;
    ok, pathPoolSize, offset := ReadValue(buffer, offset, 8);
    if !ok || pathPoolSize > |buffer| - offset {
      return None;
    }
    var pathPool := buffer[offset..offset + pathPoolSize];
    offset := offset + pathPoolSize;
    if entryCount > (|buffer| - offset) / RECORD_SIZE {
      return None;
    }
    ghost var first := offset;
    var meta: seq<Record> := [];
    for i := 0 to entryCount
      invariant offset == first + RECORD_SIZE * i
      invariant meta == RecordsAt(buffer, first, i)
      invariant forall k :: 0 <= k < i ==> RecordFits(meta[k], pathPoolSize)
    {
      var record;
      ok, record, offset := ReadRecord(buffer, offset);
      if !ok {
        return None;
      }
      if !RecordFits(record, pathPoolSize) {
        RecordsAtPrefix(buffer, first, entryCount, i);
        return None;
      }
      meta := meta + [record];
    }
    var stop;
    ok, stop, offset := ReadValue(buffer, offset, 8);
    if !ok || offset != |buffer| {
      return None;
    }
    return Some(Image(build, stop, meta, pathPool));
  }

  lemma {:induction false} RecordsAtPrefix(b: Text, offset: nat, n: nat, i: nat)
    requires offset + RECORD_SIZE * n <= |b| && i < n
    ensures RecordsAt(b, offset, n)[i] == RecordAt(b, offset + RECORD_SIZE * i)
    decreases n
  {
    if i < n - 1 {
      RecordsAtPrefix(b, offset, n - 1, i);
    }
  }

  /** Load: a validated image becomes a pool through LoadFromPathPool. */
  method Load(buffer: Text) returns (result: Option<Image>, pool: IndexPool)
    ensures IsLoadResult(buffer, result)
    ensures pool.Valid() && fresh(pool)
    ensures pool.Rep() == if result.Some? then LoadedPool(result.value) else EMPTY_POOL
  {
    result := ReadImage(buffer);
    if result == None {
      pool := new IndexPool();
    } else {
      MetaFits(result.value);
      pool := new IndexPool.LoadFromPathPool(MetaOf(result.value.records), result.value.pathPool);
    }
  }

  // ----- Round trip -----

  function NewMetaOf(r: Record): EntryMeta {
    EntryMeta(r.size, r.lastModified, r.pathOffset, 0, r.attributes, r.pathLen, 0, r.nameStart, false)
  }

  function MetaOf(records: seq<Record>): (meta: seq<EntryMeta>)
    ensures |meta| == |records|
    ensures forall k :: 0 <= k < |records| ==> meta[k] == NewMetaOf(records[k])
  {
    seq(|records|, k requires 0 <= k < |records| => NewMetaOf(records[k]))
  }

  lemma MetaFits(i: Image)
    requires WellFormed(i)
    ensures SlicesFit(MetaOf(i.records), i.pathPool)
  {
    forall k | 0 <= k < |i.records|
      ensures MetaOf(i.records)[k].pathOffset + MetaOf(i.records)[k].pathLen <= |i.pathPool|
      ensures MetaOf(i.records)[k].nameStart <= MetaOf(i.records)[k].pathLen
    {
      assert RecordFits(i.records[k], |i.pathPool|);
    }
  }

  function LoadedPool(i: Image): Pool
    requires WellFormed(i)
  {
    MetaFits(i);
    Rebuilt(MetaOf(i.records), i.pathPool, |i.records|)
  }

  /** The indices of the live entries among the first n. */
  function LiveIndices(p: Pool, n: nat): (r: seq<nat>)
    requires n <= |p.meta|
    ensures forall k :: 0 <= k < |r| ==> r[k] < n && !p.meta[r[k]].deleted
    ensures forall j, k :: 0 <= j < k < |r| ==> r[j] < r[k]
  {
    if n == 0 then []
    else if p.meta[n - 1].deleted then LiveIndices(p, n - 1)
    else LiveIndices(p, n - 1) + [n - 1]
  }

  lemma {:induction false} LiveIndicesComplete(p: Pool, n: nat, i: nat)
    requires i < n <= |p.meta| && !p.meta[i].deleted
    ensures i in LiveIndices(p, n)
    decreases n
  {
    if i < n - 1 {
      LiveIndicesComplete(p, n - 1, i);
    }
  }

  /** Record k of the compacted image describes the k-th live entry, and its compacted path bytes
      are that entry's path. */
  ghost predicate DescribesLive(p: Pool, n: nat, k: nat)
    requires ValidPool(p) && n <= |p.meta|
    requires k < |LiveRecords(p, n)| == |LiveIndices(p, n)|
  {
    var r, m, paths := LiveRecords(p, n)[k], p.meta[LiveIndices(p, n)[k]], LivePaths(p, n);
    && r == Record(m.size, m.lastModified, m.attributes, r.pathOffset, m.pathLen, m.nameStart)
    && r.pathOffset + r.pathLen <= |paths|
    && InRange(p, LiveIndices(p, n)[k])
    && paths[r.pathOffset..r.pathOffset + r.pathLen] == PathOf(m, p.pathPool)
  }

  lemma {:induction false} CompactionKeepsLive(p: Pool, n: nat)
    requires ValidPool(p) && n <= |p.meta|
    ensures |LiveRecords(p, n)| == |LiveIndices(p, n)|
    ensures forall k :: 0 <= k < |LiveRecords(p, n)| ==> DescribesLive(p, n, k)
  {
    hide PathOf;
    if n > 0 {
      CompactionKeepsLive(p, n - 1);
      assert InRange(p, n - 1);
      var before, paths := LivePaths(p, n - 1), LivePaths(p, n);
      forall k | 0 <= k < |LiveRecords(p, n)| ensures DescribesLive(p, n, k) {
        if k < |LiveRecords(p, n - 1)| {
          assert DescribesLive(p, n - 1, k);
          var r := LiveRecords(p, n - 1)[k];
          assert before <= paths;
          assert paths[r.pathOffset..r.pathOffset + r.pathLen] == before[r.pathOffset..r.pathOffset + r.pathLen];
        }
      }
    }
  }

  /** The pool's live part fits the format's 64-bit counts. */
  ghost predicate FitsFormat(p: Pool)
    requires ValidPool(p)
  {
    |p.meta| < TWO_64 && |LivePaths(p, |p.meta|)| < TWO_64
  }

  lemma LiveImageWellFormed(p: Pool, build: u64, stop: u64)
    requires ValidPool(p) && FitsFormat(p)
    ensures WellFormed(LiveImage(p, build, stop))
  {
    CompactionKeepsLive(p, |p.meta|);
    var i := LiveImage(p, build, stop);
    forall k | 0 <= k < |i.records| ensures RecordFits(i.records[k], |i.pathPool|) {
      assert DescribesLive(p, |p.meta|, k);
    }
    LiveIndicesCount(p, |p.meta|);
  }

  lemma {:induction false} LiveIndicesCount(p: Pool, n: nat)
    requires n <= |p.meta|
    ensures |LiveIndices(p, n)| <= n
  {
    if n > 0 {
      LiveIndicesCount(p, n - 1);
    }
  }

  /** Every entry of `loaded` is one of p's live entries, in order, with an equal view (including
      the rebuilt folded name and token spans), and none is a tombstone. */
  ghost predicate HoldsLiveEntries(loaded: Pool, p: Pool)
    requires ValidPool(p)
  {
    var live := LiveIndices(p, |p.meta|);
    && ValidPool(loaded) && |loaded.meta| == |live|
    && forall k :: 0 <= k < |live| ==> View(loaded, k) == View(p, live[k]) && !loaded.meta[k].deleted
  }

  lemma LoadedEntry(p: Pool, build: u64, stop: u64, k: nat)
    requires ValidPool(p) && FaithfulPool(p) && WellFormed(LiveImage(p, build, stop))
    requires |LoadedPool(LiveImage(p, build, stop)).spans| < TWO_32
    requires k < |LiveIndices(p, |p.meta|)| == |LiveRecords(p, |p.meta|)| && DescribesLive(p, |p.meta|, k)
    ensures var loaded := LoadedPool(LiveImage(p, build, stop));
      && ValidPool(loaded) && k < |loaded.meta| && !loaded.meta[k].deleted
      && View(loaded, k) == View(p, LiveIndices(p, |p.meta|)[k])
  {
    var i, at := LiveImage(p, build, stop), LiveIndices(p, |p.meta|)[k];
    var meta := MetaOf(i.records);
    MetaFits(i);
    hide LiveIndices, LiveRecords, LivePaths, Rebuilt, WellFormed, View, ShowsRebuilt;
    RebuiltValid(meta, i.pathPool, |meta|);
    RebuiltViews(meta, i.pathPool, |meta|, k);
    RebuiltDeleted(meta, i.pathPool, |meta|, k);
    SameView(p, at, meta[k], i.pathPool, View(LoadedPool(i), k));
  }

  lemma SameView(p: Pool, at: nat, m: EntryMeta, pathPool: Text, v: EntryView)
    requires ValidPool(p) && at < |p.meta| && InRange(p, at) && Faithful(View(p, at))
    requires m.pathOffset + m.pathLen <= |pathPool| && m.nameStart <= m.pathLen
    requires PathOf(m, pathPool) == PathOf(p.meta[at], p.pathPool)
    requires m.size == p.meta[at].size && m.lastModified == p.meta[at].lastModified
    requires m.attributes == p.meta[at].attributes && m.nameStart == p.meta[at].nameStart
    requires ShowsRebuilt(v, m, pathPool)
    ensures v == View(p, at)
  {
    hide PathOf, Spans, CaseFold;
    assert |View(p, at).spans| < TWO_16;
  }

  /** Round trip with compaction: loading the serialized bytes gives back both timestamps and a
      pool that holds exactly the live entries. */
  lemma RoundTrip(p: Pool, build: u64, stop: u64)
    requires ValidPool(p) && FaithfulPool(p) && FitsFormat(p)
    ensures var i := LiveImage(p, build, stop);
      && WellFormed(i) && IsLoadResult(Render(i), Some(i)) && i.build == build && i.stop == stop
      && (|LoadedPool(i).spans| < TWO_32 ==> HoldsLiveEntries(LoadedPool(i), p))
  {
    var i := LiveImage(p, build, stop);
    LiveImageWellFormed(p, build, stop);
    CompactionKeepsLive(p, |p.meta|);
    MetaFits(i);
    RebuiltValid(MetaOf(i.records), i.pathPool, |i.records|);
    hide WellFormed, LiveRecords, LivePaths, LiveIndices, Rebuilt, View, DescribesLive, InRange, Render;
    if |LoadedPool(i).spans| < TWO_32 {
      forall k | 0 <= k < |LiveIndices(p, |p.meta|)|
        ensures !LoadedPool(i).meta[k].deleted
        ensures View(LoadedPool(i), k) == View(p, LiveIndices(p, |p.meta|)[k])
      {
        LoadedEntry(p, build, stop, k);
      }
    }
  }

  /** The token spans of the live entries among the first n. */
  function LiveTokenTotal(p: Pool, n: nat): (total: nat)
    requires ValidPool(p) && n <= |p.meta|
    ensures total <= TokenTotal(p, n)
  {
    if n == 0 then 0
    else LiveTokenTotal(p, n - 1) + if p.meta[n - 1].deleted then 0 else |View(p, n - 1).spans|
  }

  lemma {:induction false} LiveIndicesPrefix(p: Pool, m: nat, n: nat)
    requires m <= n <= |p.meta|
    ensures LiveIndices(p, m) <= LiveIndices(p, n)
    decreases n
  {
    if m < n {
      LiveIndicesPrefix(p, m, n - 1);
    }
  }

  /** Loading record k appends as many spans as the k-th live entry's view has. */
  ghost predicate LoadsSpans(p: Pool, meta: seq<EntryMeta>, pathPool: Text, k: nat)
    requires ValidPool(p) && SlicesFit(meta, pathPool) && k < |meta| == |LiveIndices(p, |p.meta|)|
  {
    |Rebuilt(meta, pathPool, k + 1).spans|
    == |Rebuilt(meta, pathPool, k).spans| + |View(p, LiveIndices(p, |p.meta|)[k]).spans|
  }

  lemma LoadedSpans(p: Pool, build: u64, stop: u64, k: nat)
    requires ValidPool(p) && FaithfulPool(p) && WellFormed(LiveImage(p, build, stop))
    requires k < |LiveIndices(p, |p.meta|)| == |LiveRecords(p, |p.meta|)| && DescribesLive(p, |p.meta|, k)
    ensures var i := LiveImage(p, build, stop); var meta := MetaOf(i.records);
      SlicesFit(meta, i.pathPool) && LoadsSpans(p, meta, i.pathPool, k)
  {
    var i, at := LiveImage(p, build, stop), LiveIndices(p, |p.meta|)[k];
    var meta := MetaOf(i.records);
    MetaFits(i);
    hide LiveIndices, LiveRecords, LivePaths, Rebuilt, WellFormed, PathOf, Spans, CaseFold;
    RebuiltStep(meta, i.pathPool, k);
    assert Faithful(View(p, at)) && InRange(p, at);
    assert FoldedName(meta[k], i.pathPool) == View(p, at).nameLower;
  }

  /** The n-th entry's part in the live totals. */
  lemma LiveTotalStep(p: Pool, n: nat)
    requires ValidPool(p) && 0 < n <= |p.meta|
    ensures |LiveIndices(p, n)| <= |LiveIndices(p, |p.meta|)|
    ensures p.meta[n - 1].deleted ==>
      |LiveIndices(p, n)| == |LiveIndices(p, n - 1)| && LiveTokenTotal(p, n) == LiveTokenTotal(p, n - 1)
    ensures !p.meta[n - 1].deleted ==>
      && |LiveIndices(p, n)| == |LiveIndices(p, n - 1)| + 1
      && LiveIndices(p, |p.meta|)[|LiveIndices(p, n - 1)|] == n - 1
      && LiveTokenTotal(p, n) == LiveTokenTotal(p, n - 1) + |View(p, n - 1).spans|
  {
    LiveIndicesPrefix(p, n, |p.meta|);
    hide View, TokenTotal;
  }

  lemma {:induction false} LoadedTotal(p: Pool, meta: seq<EntryMeta>, pathPool: Text, n: nat)
    requires ValidPool(p) && SlicesFit(meta, pathPool) && n <= |p.meta|
    requires |meta| == |LiveIndices(p, |p.meta|)|
    requires forall k :: 0 <= k < |meta| ==> LoadsSpans(p, meta, pathPool, k)
    ensures |LiveIndices(p, n)| <= |meta|
    ensures |Rebuilt(meta, pathPool, |LiveIndices(p, n)|).spans| == LiveTokenTotal(p, n)
    decreases n
  {
    hide *;
    if n == 0 {
      NothingLoaded(p, meta, pathPool);
    } else {
      LiveTotalStep(p, n);
      LoadedTotal(p, meta, pathPool, n - 1);
      if !p.meta[n - 1].deleted {
        NextLoaded(p, meta, pathPool, |LiveIndices(p, n - 1)|);
      }
    }
  }

  lemma NothingLoaded(p: Pool, meta: seq<EntryMeta>, pathPool: Text)
    requires ValidPool(p) && SlicesFit(meta, pathPool)
    ensures LiveIndices(p, 0) == [] && LiveTokenTotal(p, 0) == 0 && Rebuilt(meta, pathPool, 0).spans == []
  {
  }

  lemma NextLoaded(p: Pool, meta: seq<EntryMeta>, pathPool: Text, k: nat)
    requires ValidPool(p) && SlicesFit(meta, pathPool) && k < |meta| == |LiveIndices(p, |p.meta|)|
    requires LoadsSpans(p, meta, pathPool, k)
    ensures |Rebuilt(meta, pathPool, k + 1).spans|
      == |Rebuilt(meta, pathPool, k).spans| + |View(p, LiveIndices(p, |p.meta|)[k]).spans|
  {
  }

  /** The round trip of every pool the program builds within the field widths, whatever was deleted on
      the way: its bytes load back to exactly its live entries, and loading never takes more token
      spans than were there before. */
  lemma BuiltRoundTrip(ops: seq<PoolOp>, build: u64, stop: u64)
    requires FittingOps(ops) && (ValidPool(Built(ops)) ==> FitsFormat(Built(ops)))
    ensures ValidPool(Built(ops))
    ensures var i := LiveImage(Built(ops), build, stop);
      && WellFormed(i) && IsLoadResult(Render(i), Some(i)) && i.build == build && i.stop == stop
      && HoldsLiveEntries(LoadedPool(i), Built(ops)) && |LoadedPool(i).spans| <= |Built(ops).spans|
  {
    var p := Built(ops);
    BuiltFaithful(ops);
    BuiltTotal(ops);
    hide Built, FaithfulPool, FitsFormat, WellFormed, Render, HoldsLiveEntries;
    RoundTrip(p, build, stop);
    var i := LiveImage(p, build, stop);
    MetaFits(i);
    CompactionKeepsLive(p, |p.meta|);
    forall k | 0 <= k < |i.records| ensures LoadsSpans(p, MetaOf(i.records), i.pathPool, k) {
      LoadedSpans(p, build, stop, k);
    }
    LoadedTotal(p, MetaOf(i.records), i.pathPool, |p.meta|);
  }

  /** The result of loading is determined by the bytes. */
  lemma LoadDeterminate(bytes: Text, r: Option<Image>, s: Option<Image>)
    requires IsLoadResult(bytes, r) && IsLoadResult(bytes, s)
    ensures r == s
  {
    hide Render, WellFormed;
    if r.Some? && s.Some? {
      DecodeComplete(r.value);
      DecodeComplete(s.value);
    }
  }

  // ----- Saving a loaded index again -----

  /** The records' path slices tile the path pool in order. */
  ghost predicate Tiled(i: Image) {
    && (|i.records| == 0 ==> |i.pathPool| == 0)
    && (|i.records| > 0 ==> i.records[0].pathOffset == 0)
    && forall k :: 0 <= k < |i.records| ==> SliceMeetsNext(i, k)
  }

  ghost predicate SliceMeetsNext(i: Image, k: nat)
    requires k < |i.records|
  {
    i.records[k].pathOffset + i.records[k].pathLen == TileEnd(i, k + 1)
  }

  /** Where the first n slices end. */
  function TileEnd(i: Image, n: nat): nat
    requires n <= |i.records|
  {
    if n < |i.records| then i.records[n].pathOffset else |i.pathPool|
  }

  lemma {:induction false} CompactionTiles(p: Pool, n: nat, build: u64, stop: u64)
    requires ValidPool(p) && n <= |p.meta|
    ensures Tiled(Image(build, stop, LiveRecords(p, n), LivePaths(p, n)))
  {
    hide PathOf;
    if n > 0 {
      CompactionTiles(p, n - 1, build, stop);
      assert InRange(p, n - 1);
      var shorter, i := LiveRecords(p, n - 1), Image(build, stop, LiveRecords(p, n), LivePaths(p, n));
      forall k | 0 <= k < |i.records|
        ensures SliceMeetsNext(i, k)
      {
        if k < |shorter| {
          assert SliceMeetsNext(Image(build, stop, shorter, LivePaths(p, n - 1)), k);
          assert i.records[k] == shorter[k];
        }
      }
    }
  }

  lemma LiveStep(p: Pool, n: nat, r: Record)
    requires ValidPool(p) && n < |p.meta| && SameFields(p.meta[n], r) && r.pathOffset == |LivePaths(p, n)|
    ensures r.pathOffset + r.pathLen <= |p.pathPool|
    ensures LivePaths(p, n + 1) == LivePaths(p, n) + p.pathPool[r.pathOffset..r.pathOffset + r.pathLen]
    ensures LiveRecords(p, n + 1) == LiveRecords(p, n) + [r]
  {
    assert InRange(p, n);
  }

  /** The live pool record m carries exactly the fields of the file's record r. */
  ghost predicate SameFields(m: EntryMeta, r: Record) {
    && m.size == r.size && m.lastModified == r.lastModified && m.attributes == r.attributes
    && m.pathOffset == r.pathOffset && m.pathLen == r.pathLen && m.nameStart == r.nameStart
    && !m.deleted
  }

  lemma {:induction false} TilesSurvive(p: Pool, i: Image, n: nat)
    requires ValidPool(p) && p.pathPool == i.pathPool && |p.meta| == |i.records|
    requires forall k :: 0 <= k < |i.records| ==> SameFields(p.meta[k], i.records[k])
    requires Tiled(i) && n <= |i.records|
    ensures TileEnd(i, n) <= |i.pathPool|
    ensures LivePaths(p, n) == i.pathPool[..TileEnd(i, n)]
    ensures LiveRecords(p, n) == i.records[..n]
  {
    if n == 0 {
      assert i.pathPool[..0] == [];
    } else {
      TileStep(i, n - 1);
      hide Tiled, TileEnd, ValidPool, LivePaths, LiveRecords;
      TilesSurvive(p, i, n - 1);
      LiveStep(p, n - 1, i.records[n - 1]);
      SliceJoin(i.pathPool, TileEnd(i, n - 1), TileEnd(i, n));
      SliceJoin(i.records, n - 1, n);
    }
  }

  lemma TileStep(i: Image, n: nat)
    requires Tiled(i) && n < |i.records|
    ensures TileEnd(i, n) == i.records[n].pathOffset
    ensures TileEnd(i, n + 1) == i.records[n].pathOffset + i.records[n].pathLen
  {
    assert SliceMeetsNext(i, n);
  }

  lemma LoadedValid(i: Image)
    requires WellFormed(i)
    ensures ValidPool(LoadedPool(i)) && |LoadedPool(i).meta| == |i.records|
    ensures LoadedPool(i).pathPool == i.pathPool
  {
    MetaFits(i);
    RebuiltValid(MetaOf(i.records), i.pathPool, |i.records|);
  }

  lemma LoadedMeta(i: Image, k: nat)
    requires WellFormed(i) && k < |i.records|
    ensures ValidPool(LoadedPool(i)) && |LoadedPool(i).meta| == |i.records|
    ensures SameFields(LoadedPool(i).meta[k], i.records[k]) && LoadedPool(i).pathPool == i.pathPool
  {
    MetaFits(i);
    RebuiltValid(MetaOf(i.records), i.pathPool, |i.records|);
    RebuiltMeta(MetaOf(i.records), i.pathPool, |i.records|, k);
  }

  lemma {:induction false} RebuiltMeta(meta: seq<EntryMeta>, pathPool: Text, n: nat, k: nat)
    requires k < n <= |meta| && SlicesFit(meta, pathPool)
    ensures var m, r := Rebuilt(meta, pathPool, n).meta[k], meta[k];
      && m.size == r.size && m.lastModified == r.lastModified && m.attributes == r.attributes
      && m.pathOffset == r.pathOffset && m.pathLen == r.pathLen && m.nameStart == r.nameStart
      && m.deleted == r.deleted
    decreases n
  {
    hide FoldedName, Spans;
    if k < n - 1 {
      RebuiltMeta(meta, pathPool, n - 1, k);
    }
  }

  /** Saving a loaded file rewrites it in compact form, and from then on saving what was loaded
      reproduces the same bytes. */
  lemma SaveIdempotent(loaded: Image)
    requires WellFormed(loaded)
    requires ValidPool(LoadedPool(loaded)) ==> FitsFormat(LoadedPool(loaded))
    ensures ValidPool(LoadedPool(loaded))
    ensures var again := LiveImage(LoadedPool(loaded), loaded.build, loaded.stop);
      && WellFormed(again) && ValidPool(LoadedPool(again))
      && Render(LiveImage(LoadedPool(again), again.build, again.stop)) == Render(again)
  {
    LoadedValid(loaded);
    var p := LoadedPool(loaded);
    var again := LiveImage(p, loaded.build, loaded.stop);
    hide WellFormed, LoadedPool, LiveRecords, LivePaths, Render, Tiled;
    LiveImageWellFormed(p, loaded.build, loaded.stop);
    CompactionTiles(p, |p.meta|, loaded.build, loaded.stop);
    forall k | 0 <= k < |again.records|
      ensures |LoadedPool(again).meta| == |again.records| && LoadedPool(again).pathPool == again.pathPool
      ensures SameFields(LoadedPool(again).meta[k], again.records[k])
    {
      LoadedMeta(again, k);
    }
    LoadedValid(again);
    TilesSurvive(LoadedPool(again), again, |again.records|);
    assert again.records[..|again.records|] == again.records;
    assert again.pathPool[..|again.pathPool|] == again.pathPool;
  }

  // ----- Damage -----

  /** Changing the checksummed part of an accepted file within any window of 32 consecutive bits
      makes Load fail. */
  lemma DamageDetected(i: Image, damaged: Text, at: nat)
    requires WellFormed(i) && |damaged| == |Render(i)| && damaged != Render(i)
    requires damaged[..HEADER_SIZE] == Render(i)[..HEADER_SIZE]
    requires Crc32.BurstApart(damaged[HEADER_SIZE..], Render(i)[HEADER_SIZE..], at)
    ensures IsLoadResult(damaged, None)
  {
    var b := Render(i);
    RenderedHeader(i);
    assert damaged == damaged[..HEADER_SIZE] + damaged[HEADER_SIZE..];
    assert b == b[..HEADER_SIZE] + b[HEADER_SIZE..];
    assert damaged[22..26] == damaged[..HEADER_SIZE][22..26] == b[22..26];
    Crc32.BurstDetected(damaged[HEADER_SIZE..], b[HEADER_SIZE..], at);
    hide Render, Body, CrcValue;
    forall j | WellFormed(j) ensures damaged != Render(j) {
      if damaged == Render(j) {
        RenderedHeader(j);
        CrcValueInjective(Crc32.Checksum(Body(i)), Crc32.Checksum(Body(j)));
      }
    }
  }

  /** No file Load accepts is a strict prefix of another: a truncated or extended file fails. */
  lemma PrefixFree(a: Text, b: Text)
    requires Accepts(a) && Accepts(b) && a <= b
    ensures a == b
  {
    assert a[14..22] == b[14..22] && a[HEADER_SIZE..HEADER_SIZE + 8] == b[HEADER_SIZE..HEADER_SIZE + 8];
  }
}
