/** The V2 update envelope: the packer's writer, the client's reader, and the embedding of signatures. */
module UpdateEnvelope {
  import opened Wrappers

  type Byte = b: int | 0 <= b < 256
  type Bytes = seq<Byte>
  type U32 = n: int | 0 <= n < 0x1_0000_0000
  type U64 = n: int | 0 <= n < 0x1_0000_0000_0000_0000
  type I64 = n: int | -0x8000_0000_0000_0000 <= n < 0x8000_0000_0000_0000

  datatype Channel = Stable | Beta | CanaryPublic | CanaryPrivate
  datatype Os = Windows | Mac | Linux
  datatype Arch = X86 | X64 | Arm
  datatype Signature = Signature(keyId: Bytes, bytes: Bytes)
  datatype Envelope = Envelope(channel: Channel, os: Os, arch: Arch, version: U64, created: I64,
                               manifest: Bytes, manifestSignature: Bytes,
                               signatures: seq<Signature>, payload: Bytes)

  const MAGIC: Bytes := [0x54, 0x44, 0x55, 0x50] // "TDUP"
  const FORMAT: U32 := 2

  function ChannelCode(c: Channel): Byte {
    match c case Stable => 0 case Beta => 1 case CanaryPublic => 2 case CanaryPrivate => 3
  }
  function ChannelFrom(b: Byte): Option<Channel> {
    if b == 0 then Some(Stable) else if b == 1 then Some(Beta)
    else if b == 2 then Some(CanaryPublic) else if b == 3 then Some(CanaryPrivate) else None
  }
  function OsCode(o: Os): Byte { match o case Windows => 0 case Mac => 1 case Linux => 2 }
  function OsFrom(b: Byte): Option<Os> {
    if b == 0 then Some(Windows) else if b == 1 then Some(Mac) else if b == 2 then Some(Linux) else None
  }
  function ArchCode(a: Arch): Byte { match a case X86 => 0 case X64 => 1 case Arm => 2 }
  function ArchFrom(b: Byte): Option<Arch> {
    if b == 0 then Some(X86) else if b == 1 then Some(X64) else if b == 2 then Some(Arm) else None
  }

  // ---- The written layout ----

  function LeU32(v: U32): Bytes {
    [v % 256, v / 0x100 % 256, v / 0x1_0000 % 256, v / 0x100_0000 % 256]
  }

  function LeU64(v: U64): Bytes {
    LeU32(v % 0x1_0000_0000) + LeU32(v / 0x1_0000_0000)
  }

  /** The conversion `quint64(created)`. */
  function ToU64(v: I64): U64 { if v < 0 then v + 0x1_0000_0000_0000_0000 else v }
  function ToI64(v: U64): I64 { if v < 0x8000_0000_0000_0000 then v else v - 0x1_0000_0000_0000_0000 }

  /** A length, truncated to 32 bits as the packer's cast does, and then the bytes. */
  function Blob(bytes: Bytes): Bytes {
    LeU32(|bytes| % 0x1_0000_0000) + bytes
  }

  function SignatureEntries(signatures: seq<Signature>): Bytes {
    if signatures == [] then []
    else Blob(signatures[0].keyId) + Blob(signatures[0].bytes) + SignatureEntries(signatures[1..])
  }

  function SignatureSection(signatures: seq<Signature>): Bytes {
    LeU32(|signatures| % 0x1_0000_0000) + SignatureEntries(signatures)
  }

  function Target(e: Envelope): Bytes {
    [ChannelCode(e.channel), OsCode(e.os), ArchCode(e.arch)]
  }

  function Times(e: Envelope): Bytes {
    LeU64(e.version) + LeU64(ToU64(e.created))
  }

  function Header(e: Envelope): Bytes {
    MAGIC + (LeU32(FORMAT) + (Target(e) + Times(e)))
  }

  /** Everything up to the end of the manifest: the bytes every signature covers. */
  function SignedRegion(e: Envelope): Bytes {
    Header(e) + Blob(e.manifest)
  }

  function Layout(e: Envelope): Bytes {
    SignedRegion(e) + (Blob(e.manifestSignature) + (SignatureSection(e.signatures) + Blob(e.payload)))
  }

  // ---- The reader ----

  /** Bounds on the variable-length fields. */
  datatype Limits = Limits(least: nat, manifest: U32, manifestSignature: U32, signatures: U32,
                           keyId: U32, signature: U32, payload: U32)

  /** The client's limits: no field is empty, and each has its own maximum. */
  const CLIENT := Limits(1, 256 * 1024, 256, 16, 64, 512, 256 * 1024 * 1024)
  /** Only what a 32-bit length can say. */
  const WIDE := Limits(0, 0xFFFF_FFFF, 0xFFFF_FFFF, 0xFFFF_FFFF, 0xFFFF_FFFF, 0xFFFF_FFFF, 0xFFFF_FFFF)

  predicate Fits(bytes: Bytes, least: nat, most: U32) { least <= |bytes| <= most }

  predicate Within(l: Limits, e: Envelope) {
    && Fits(e.manifest, l.least, l.manifest)
    && Fits(e.manifestSignature, l.least, l.manifestSignature)
    && |e.signatures| <= l.signatures
    && (forall s :: s in e.signatures ==> Fits(s.keyId, l.least, l.keyId) && Fits(s.bytes, l.least, l.signature))
    && Fits(e.payload, l.least, l.payload)
  }

  datatype Read<+T> = Read(value: T, rest: Bytes)

  function ReadU8(b: Bytes): Option<Read<Byte>> {
    if b == [] then None else Some(Read(b[0], b[1..]))
  }

  function FromLe(b0: int, b1: int, b2: int, b3: int): int {
    b0 + 0x100 * b1 + 0x1_0000 * b2 + 0x100_0000 * b3
  }

  function ReadU32(b: Bytes): Option<Read<U32>> {
    if |b| < 4 then None
    else Some(Read(FromLe(b[0], b[1], b[2], b[3]), b[4..]))
  }

  function ReadU64(b: Bytes): Option<Read<U64>> {
    var low :- ReadU32(b);
    var high :- ReadU32(low.rest);
    Some(Read(low.value + 0x1_0000_0000 * high.value, high.rest))
  }

  function ReadBlob(b: Bytes, least: nat, most: U32): Option<Read<Bytes>> {
    var length :- ReadU32(b);
    if length.value < least || length.value > most || length.value > |length.rest| then None
    else Some(Read(length.rest[..length.value], length.rest[length.value..]))
  }

  function ReadEntries(b: Bytes, count: nat, l: Limits): Option<Read<seq<Signature>>> {
    if count == 0 then Some(Read([], b))
    else
      var id :- ReadBlob(b, l.least, l.keyId);
      var sig :- ReadBlob(id.rest, l.least, l.signature);
      var more :- ReadEntries(sig.rest, count - 1, l);
      Some(Read([Signature(id.value, sig.value)] + more.value, more.rest))
  }

  datatype Head = Head(channel: Channel, os: Os, arch: Arch, version: U64, created: I64)

  function HeadOf(e: Envelope): Head { Head(e.channel, e.os, e.arch, e.version, e.created) }

  function ReadTarget(b: Bytes): Option<Read<(Channel, Os, Arch)>> {
    var c :- ReadU8(b);
    var channel :- ChannelFrom(c.value);
    var o :- ReadU8(c.rest);
    var os :- OsFrom(o.value);
    var a :- ReadU8(o.rest);
    var arch :- ArchFrom(a.value);
    Some(Read((channel, os, arch), a.rest))
  }

  /** The fixed-size fields, in order. */
  function ReadHead(data: Bytes): Option<Read<Head>> {
    if !(MAGIC <= data) then None
    else
      var format :- ReadU32(data[4..]);
      if format.value != FORMAT then None
      else
        var target :- ReadTarget(format.rest);
        var version :- ReadU64(target.rest);
        var created :- ReadU64(version.rest);
        Some(Read(Head(target.value.0, target.value.1, target.value.2, version.value, ToI64(created.value)),
                  created.rest))
  }

  /** The fields after the manifest, and nothing left over. */
  function ReadBody(h: Head, manifest: Bytes, b: Bytes, l: Limits): Option<Envelope> {
    var manifestSignature :- ReadBlob(b, l.least, l.manifestSignature);
    var count :- ReadU32(manifestSignature.rest);
    if count.value > l.signatures then None
    else
      var signatures :- ReadEntries(count.rest, count.value, l);
      var payload :- ReadBlob(signatures.rest, l.least, l.payload);
      if payload.rest != [] then None
      else Some(Envelope(h.channel, h.os, h.arch, h.version, h.created, manifest,
                         manifestSignature.value, signatures.value, payload.value))
  }

  function Decode(data: Bytes, l: Limits): Option<Envelope> {
    var head :- ReadHead(data);
    var manifest :- ReadBlob(head.rest, l.least, l.manifest);
    ReadBody(head.value, manifest.value, manifest.rest, l)
  }

  // ---- Field by field: reading is the inverse of writing ----

  lemma Digits(v: U32)
    ensures FromLe(v % 256, v / 0x100 % 256, v / 0x1_0000 % 256, v / 0x100_0000 % 256) == v
  {
    var a, b, c := v / 0x100, v / 0x1_0000, v / 0x100_0000;
    assert b == a / 0x100 && c == b / 0x100;
  }

  lemma FromDigits(b0: Byte, b1: Byte, b2: Byte, b3: Byte)
    ensures LeU32(FromLe(b0, b1, b2, b3)) == [b0, b1, b2, b3]
  {
    var v := FromLe(b0, b1, b2, b3);
    LowDigit(b1 + 0x100 * b2 + 0x1_0000 * b3, b0);
    LowDigit(b2 + 0x100 * b3, b1);
    LowDigit(b3, b2);
    LowDigit(0, b3);
    assert v / 0x1_0000 == v / 0x100 / 0x100 && v / 0x100_0000 == v / 0x1_0000 / 0x100;
  }

  lemma LowDigit(high: int, low: Byte)
    ensures (low + 0x100 * high) / 0x100 == high && (low + 0x100 * high) % 0x100 == low
  {}

  lemma U32Reads(v: U32, rest: Bytes)
    ensures ReadU32(LeU32(v) + rest) == Some(Read(v, rest))
  {
    hide FromLe;
    Digits(v);
    assert (LeU32(v) + rest)[4..] == rest;
  }

  lemma U32Writes(b: Bytes)
    requires ReadU32(b).Some?
    ensures LeU32(ReadU32(b).value.value) + ReadU32(b).value.rest == b
  {
    hide LeU32, FromLe;
    FromDigits(b[0], b[1], b[2], b[3]);
    assert b == [b[0], b[1], b[2], b[3]] + b[4..];
  }

  lemma U64Reads(v: U64, rest: Bytes)
    ensures ReadU64(LeU64(v) + rest) == Some(Read(v, rest))
  {
    var low, high: U32 := v % 0x1_0000_0000, v / 0x1_0000_0000;
    assert LeU64(v) + rest == LeU32(low) + (LeU32(high) + rest);
    U32Reads(low, LeU32(high) + rest);
    U32Reads(high, rest);
  }

  lemma U64Writes(b: Bytes)
    requires ReadU64(b).Some?
    ensures LeU64(ReadU64(b).value.value) + ReadU64(b).value.rest == b
  {
    hide LeU32;
    var low := ReadU32(b).value;
    var high := ReadU32(low.rest).value;
    U32Writes(b);
    U32Writes(low.rest);
    HalvesOf(low.value, high.value);
    hide ReadU32;
    TwoHalves(LeU32(low.value), LeU32(high.value), high.rest);
  }

  lemma HalvesOf(low: U32, high: U32)
    ensures var v := low + 0x1_0000_0000 * high; v % 0x1_0000_0000 == low && v / 0x1_0000_0000 == high
  {}

  lemma TwoHalves(low: Bytes, high: Bytes, rest: Bytes)
    ensures low + high + rest == low + (high + rest)
  {}

  lemma BlobReads(bytes: Bytes, rest: Bytes, least: nat, most: U32)
    requires Fits(bytes, least, most)
    ensures ReadBlob(Blob(bytes) + rest, least, most) == Some(Read(bytes, rest))
  {
    hide LeU32, ReadU32;
    assert Blob(bytes) + rest == LeU32(|bytes|) + (bytes + rest);
    U32Reads(|bytes|, bytes + rest);
  }

  lemma BlobWrites(b: Bytes, least: nat, most: U32)
    requires ReadBlob(b, least, most).Some?
    ensures var r := ReadBlob(b, least, most).value;
            Fits(r.value, least, most) && Blob(r.value) + r.rest == b
  {
    hide LeU32;
    U32Writes(b);
  }

  lemma Regroup(a: Bytes, b: Bytes, c: Bytes, d: Bytes)
    ensures a + b + c + d == a + (b + (c + d))
  {}

  lemma {:induction false} EntriesRead(signatures: seq<Signature>, rest: Bytes, l: Limits)
    requires forall s :: s in signatures ==> Fits(s.keyId, l.least, l.keyId) && Fits(s.bytes, l.least, l.signature)
    ensures ReadEntries(SignatureEntries(signatures) + rest, |signatures|, l) == Some(Read(signatures, rest))
  {
    hide Blob, ReadBlob, Fits;
    if signatures == [] {
      assert SignatureEntries(signatures) + rest == rest;
    } else {
      var s := signatures[0];
      var tail := SignatureEntries(signatures[1..]) + rest;
      Regroup(Blob(s.keyId), Blob(s.bytes), SignatureEntries(signatures[1..]), rest);
      BlobReads(s.keyId, Blob(s.bytes) + tail, l.least, l.keyId);
      BlobReads(s.bytes, tail, l.least, l.signature);
      EntriesRead(signatures[1..], rest, l);
      assert [Signature(s.keyId, s.bytes)] + signatures[1..] == signatures;
    }
  }

  lemma {:induction false} EntriesWrite(b: Bytes, count: nat, l: Limits)
    requires ReadEntries(b, count, l).Some?
    decreases count
    ensures var r := ReadEntries(b, count, l).value;
            && |r.value| == count
            && (forall s :: s in r.value ==> Fits(s.keyId, l.least, l.keyId) && Fits(s.bytes, l.least, l.signature))
            && SignatureEntries(r.value) + r.rest == b
  {
    hide Blob, ReadBlob, Fits;
    if count > 0 {
      var id := ReadBlob(b, l.least, l.keyId).value;
      var sig := ReadBlob(id.rest, l.least, l.signature).value;
      BlobWrites(b, l.least, l.keyId);
      BlobWrites(id.rest, l.least, l.signature);
      EntriesWrite(sig.rest, count - 1, l);
      var more := ReadEntries(sig.rest, count - 1, l).value;
      var all := [Signature(id.value, sig.value)] + more.value;
      assert all[1..] == more.value;
      Regroup(Blob(id.value), Blob(sig.value), SignatureEntries(more.value), more.rest);
    }
  }

  // ---- The whole envelope ----

  lemma TargetReads(e: Envelope, rest: Bytes)
    ensures ReadTarget(Target(e) + rest) == Some(Read((e.channel, e.os, e.arch), rest))
  {
    var b := Target(e) + rest;
    assert b[1..][1..][1..] == rest;
  }

  lemma TargetWrites(b: Bytes, e: Envelope)
    requires ReadTarget(b).Some? && ReadTarget(b).value.value == (e.channel, e.os, e.arch)
    ensures Target(e) + ReadTarget(b).value.rest == b
  {
    assert b == [b[0], b[1], b[2]] + b[1..][1..][1..];
  }

  lemma HeadReads(e: Envelope, rest: Bytes)
    ensures ReadHead(Header(e) + rest) == Some(Read(HeadOf(e), rest))
  {
    hide LeU32, LeU64, ReadU32, ReadU64, Target, ReadTarget;
    var b3 := LeU64(ToU64(e.created)) + rest;
    var b2 := LeU64(e.version) + b3;
    var b1 := LeU32(FORMAT) + (Target(e) + b2);
    assert Header(e) + rest == MAGIC + b1;
    assert (MAGIC + b1)[4..] == b1;
    U32Reads(FORMAT, Target(e) + b2);
    TargetReads(e, b2);
    U64Reads(e.version, b3);
    U64Reads(ToU64(e.created), rest);
  }

  lemma HeadWrites(data: Bytes, e: Envelope)
    requires ReadHead(data).Some? && HeadOf(e) == ReadHead(data).value.value
    ensures Header(e) + ReadHead(data).value.rest == data
  {
    hide LeU32, LeU64, ReadU32, ReadU64, Target, ReadTarget;
    var format := ReadU32(data[4..]).value;
    var target := ReadTarget(format.rest).value;
    var version := ReadU64(target.rest).value;
    var created := ReadU64(version.rest).value;
    U32Writes(data[4..]);
    TargetWrites(format.rest, e);
    U64Writes(target.rest);
    U64Writes(version.rest);
    assert data == MAGIC + data[4..];
    assert Header(e) + created.rest
      == MAGIC + (LeU32(FORMAT) + (Target(e) + (LeU64(e.version) + (LeU64(ToU64(e.created)) + created.rest))));
  }

  function Body(e: Envelope): Bytes {
    Blob(e.manifestSignature) + (SignatureSection(e.signatures) + Blob(e.payload))
  }

  lemma BodyReads(e: Envelope, l: Limits, extra: Bytes)
    requires Within(l, e)
    ensures ReadBody(HeadOf(e), e.manifest, Body(e) + extra, l) == if extra == [] then Some(e) else None
  {
    hide LeU32, ReadU32, Blob, ReadBlob, SignatureEntries, ReadEntries;
    var b3 := Blob(e.payload) + extra;
    var b2 := SignatureEntries(e.signatures) + b3;
    var b1 := LeU32(|e.signatures|) + b2;
    assert Body(e) + extra == Blob(e.manifestSignature) + b1;
    BlobReads(e.manifestSignature, b1, l.least, l.manifestSignature);
    U32Reads(|e.signatures|, b2);
    EntriesRead(e.signatures, b3, l);
    BlobReads(e.payload, extra, l.least, l.payload);
  }

  lemma BodyWrites(h: Head, manifest: Bytes, b: Bytes, l: Limits)
    requires ReadBody(h, manifest, b, l).Some? && Fits(manifest, l.least, l.manifest)
    ensures var e := ReadBody(h, manifest, b, l).value;
            Within(l, e) && HeadOf(e) == h && e.manifest == manifest && Body(e) == b
  {
    hide LeU32, ReadU32, Blob, ReadBlob, SignatureEntries, ReadEntries;
    var e := ReadBody(h, manifest, b, l).value;
    var manifestSignature := ReadBlob(b, l.least, l.manifestSignature).value;
    var count := ReadU32(manifestSignature.rest).value;
    var signatures := ReadEntries(count.rest, count.value, l).value;
    BlobWrites(b, l.least, l.manifestSignature);
    U32Writes(manifestSignature.rest);
    EntriesWrite(count.rest, count.value, l);
    BlobWrites(signatures.rest, l.least, l.payload);
    assert Blob(e.payload) + [] == signatures.rest;
    assert SignatureSection(e.signatures) + Blob(e.payload) == manifestSignature.rest;
  }

  /** Everything within the limits is read back exactly as it was written, and with anything after it
      it is not read at all. */
  lemma DecodesWhatIsWritten(e: Envelope, l: Limits, extra: Bytes := [])
    requires Within(l, e)
    ensures Decode(Layout(e) + extra, l) == if extra == [] then Some(e) else None
    ensures extra == [] ==> Decode(Layout(e), l) == Some(e)
  {
    hide Layout, Header, Body, ReadHead, ReadBody, ReadBlob, Blob, SignatureSection;
    LayoutParts(e);
    assert Layout(e) + extra == Header(e) + (Blob(e.manifest) + (Body(e) + extra));
    HeadReads(e, Blob(e.manifest) + (Body(e) + extra));
    BlobReads(e.manifest, Body(e) + extra, l.least, l.manifest);
    BodyReads(e, l, extra);
    assert Layout(e) + [] == Layout(e);
  }

  lemma LayoutParts(e: Envelope)
    ensures Layout(e) == Header(e) + (Blob(e.manifest) + Body(e))
  {
    hide Header, Blob, SignatureSection;
  }

  /** Whatever is read is within the limits and is written back to the very same bytes. */
  lemma WritesWhatIsDecoded(data: Bytes, l: Limits)
    requires Decode(data, l).Some?
    ensures Within(l, Decode(data, l).value) && Layout(Decode(data, l).value) == data
  {
    hide Header, Body, Layout, ReadHead, ReadBody, ReadBlob, Blob;
    var e := Decode(data, l).value;
    var head := ReadHead(data).value;
    var manifest := ReadBlob(head.rest, l.least, l.manifest).value;
    BlobWrites(head.rest, l.least, l.manifest);
    BodyWrites(head.value, manifest.value, manifest.rest, l);
    HeadWrites(data, e);
    LayoutParts(e);
  }

  // ---- Where the bytes are ----

  /** The number that bytes stand for, the lowest first. */
  function LittleEndian(b: Bytes): nat {
    if b == [] then 0 else b[0] + 256 * LittleEndian(b[1..])
  }

  lemma LeU32Is(v: U32)
    ensures |LeU32(v)| == 4 && LittleEndian(LeU32(v)) == v
  {
    Digits(v);
    var b := LeU32(v);
    FourBytes(b);
  }

  lemma LowestFirst(low: Byte, rest: Bytes)
    ensures LittleEndian([low] + rest) == low as int + 256 * LittleEndian(rest)
  {
    assert ([low] + rest)[1..] == rest;
  }

  lemma {:induction false} LittleEndianConcat(a: Bytes, b: Bytes)
    requires |a| == 4
    ensures LittleEndian(a + b) == FromLe(a[0], a[1], a[2], a[3]) + 0x1_0000_0000 * LittleEndian(b)
  {
    var c3 := [a[3]] + b;
    var c2 := [a[2]] + c3;
    var c1 := [a[1]] + c2;
    assert a + b == [a[0]] + c1;
    LowestFirst(a[3], b);
    LowestFirst(a[2], c3);
    LowestFirst(a[1], c2);
    LowestFirst(a[0], c1);
  }

  lemma FourBytes(b: Bytes)
    requires |b| == 4
    ensures LittleEndian(b) == FromLe(b[0], b[1], b[2], b[3])
  {
    LittleEndianConcat(b, []);
    assert b + [] == b;
  }

  lemma LeU64Is(v: U64)
    ensures |LeU64(v)| == 8 && LittleEndian(LeU64(v)) == v
  {
    hide LeU32;
    LeU32Is(v % 0x1_0000_0000);
    LeU32Is(v / 0x1_0000_0000);
    LittleEndianConcat(LeU32(v % 0x1_0000_0000), LeU32(v / 0x1_0000_0000));
    FourBytes(LeU32(v % 0x1_0000_0000));
  }

  lemma BlobIs(bytes: Bytes)
    ensures var b := Blob(bytes);
      |b| == 4 + |bytes| && LittleEndian(b[..4]) == |bytes| % 0x1_0000_0000 && b[4..] == bytes
  {
    hide LeU32;
    LeU32Is(|bytes| % 0x1_0000_0000);
    assert Blob(bytes)[..4] == LeU32(|bytes| % 0x1_0000_0000);
  }

  /** The fixed part of the file, byte by byte: `TDUP`, the format 2, one byte each for channel, system and processor,
      and in eight bytes each, the lowest first, the version and the time (modulo 2^64). */
  lemma HeaderIs(e: Envelope)
    ensures var b := Header(e);
      && |b| == 27 && b[..4] == ['T' as int, 'D' as int, 'U' as int, 'P' as int] && b[4..8] == [2, 0, 0, 0]
      && b[8] == (match e.channel case Stable => 0 case Beta => 1 case CanaryPublic => 2 case CanaryPrivate => 3)
      && b[9] == (match e.os case Windows => 0 case Mac => 1 case Linux => 2)
      && b[10] == (match e.arch case X86 => 0 case X64 => 1 case Arm => 2)
      && LittleEndian(b[11..19]) == e.version
      && LittleEndian(b[19..27]) == e.created % 0x1_0000_0000_0000_0000
  {
    hide LeU64;
    LeU64Is(e.version);
    LeU64Is(ToU64(e.created));
    var b := Header(e);
    assert b[11..19] == LeU64(e.version) && b[19..27] == LeU64(ToU64(e.created));
  }

  /** The lengths and the variable parts of the file, in order: after the header the manifest, its signature, the number
      of signatures with their entries, and the payload at the end. */
  lemma PartsAre(e: Envelope)
    ensures var b, p := Layout(e), 27 + 4 + |e.manifest|;
      var q := p + 4 + |e.manifestSignature|;
      var r := |b| - |e.payload|;
      && 27 <= p <= q <= q + 4 <= r - 4
      && b[..27] == Header(e)
      && LittleEndian(b[27..31]) == |e.manifest| % 0x1_0000_0000 && b[31..p] == e.manifest
      && LittleEndian(b[p..p + 4]) == |e.manifestSignature| % 0x1_0000_0000 && b[p + 4..q] == e.manifestSignature
      && LittleEndian(b[q..q + 4]) == |e.signatures| % 0x1_0000_0000
      && b[q + 4..r - 4] == SignatureEntries(e.signatures)
      && LittleEndian(b[r - 4..r]) == |e.payload| % 0x1_0000_0000 && b[r..] == e.payload
  {
    hide Header, LeU32, Blob, SignatureEntries, LittleEndian;
    HeaderIs(e);
    BlobIs(e.manifest);
    BlobIs(e.manifestSignature);
    BlobIs(e.payload);
    LeU32Is(|e.signatures| % 0x1_0000_0000);
    LayoutParts(e);
    PartsOf(Header(e), Blob(e.manifest), Blob(e.manifestSignature), LeU32(|e.signatures| % 0x1_0000_0000),
            SignatureEntries(e.signatures), Blob(e.payload));
    assert Layout(e) == Joined(Header(e), Blob(e.manifest), Blob(e.manifestSignature),
      LeU32(|e.signatures| % 0x1_0000_0000), SignatureEntries(e.signatures), Blob(e.payload));
  }

  function Joined(a: Bytes, b: Bytes, c: Bytes, d: Bytes, e: Bytes, f: Bytes): Bytes { a + (b + (c + ((d + e) + f))) }

  lemma PartsOf(a: Bytes, b: Bytes, c: Bytes, d: Bytes, e: Bytes, f: Bytes)
    requires |a| == 27 && |b| >= 4 && |c| >= 4 && |d| == 4 && |f| >= 4
    ensures var all, p := Joined(a, b, c, d, e, f), 27 + |b|;
      var q := p + |c|;
      var r := |all| - |f| + 4;
      && |all| == q + 4 + |e| + |f| && all[..27] == a && all[27..31] == b[..4] && all[31..p] == b[4..]
      && all[p..p + 4] == c[..4] && all[p + 4..q] == c[4..] && all[q..q + 4] == d && all[q + 4..r - 4] == e
      && all[r - 4..r] == f[..4] && all[r..] == f[4..]
  {}

  /** An entry of the signatures: the key's name and the signature, each after its length. */
  lemma EntryIs(s: Signature, rest: seq<Signature>)
    ensures var b, k := SignatureEntries([s] + rest), 4 + |s.keyId|;
      var n := k + 4 + |s.bytes|;
      && n <= |b|
      && LittleEndian(b[..4]) == |s.keyId| % 0x1_0000_0000 && b[4..k] == s.keyId
      && LittleEndian(b[k..k + 4]) == |s.bytes| % 0x1_0000_0000 && b[k + 4..n] == s.bytes
      && b[n..] == SignatureEntries(rest)
  {
    hide Blob, LittleEndian;
    BlobIs(s.keyId);
    BlobIs(s.bytes);
    assert ([s] + rest)[1..] == rest;
    var b := SignatureEntries([s] + rest);
    var x, y, k := Blob(s.keyId), Blob(s.bytes), 4 + |s.keyId|;
    assert b == x + y + SignatureEntries(rest);
    assert b[..4] == x[..4] && b[4..k] == x[4..] && b[k..k + 4] == y[..4];
    assert b[k + 4..k + 4 + |s.bytes|] == y[4..];
  }

  /** The client accepts and recovers an envelope exactly when it is within the client's limits. */
  lemma ClientReadsExactly(e: Envelope)
    ensures Decode(Layout(e), CLIENT) == Some(e) <==> Within(CLIENT, e)
  {
    if Within(CLIENT, e) {
      DecodesWhatIsWritten(e, CLIENT);
    } else if Decode(Layout(e), CLIENT) == Some(e) {
      WritesWhatIsDecoded(Layout(e), CLIENT);
    }
  }

  /** Two envelopes whose lengths fit 32 bits never share their bytes. */
  lemma UniquelyDecodable(e: Envelope, f: Envelope)
    requires Within(WIDE, e) && Within(WIDE, f) && Layout(e) == Layout(f)
    ensures e == f
  {
    DecodesWhatIsWritten(e, WIDE);
    DecodesWhatIsWritten(f, WIDE);
  }

  /** No truncation and no continuation of a readable file is readable. */
  lemma NoOtherCut(data: Bytes, other: Bytes, l: Limits)
    requires Decode(data, l).Some? && Decode(other, l).Some? && data <= other
    ensures data == other
  {
    hide Decode, Layout;
    WritesWhatIsDecoded(data, l);
    DecodesWhatIsWritten(Decode(data, l).value, l, other[|data|..]);
    assert data + other[|data|..] == other;
  }

  // ---- The writer and the reader as they run ----

  method AppendLeU32(to: Bytes, value: U32) returns (result: Bytes)
    ensures result == to + LeU32(value)
  {
    var bytes: Bytes := [value % 256, value / 0x100 % 256, value / 0x1_0000 % 256, value / 0x100_0000 % 256];
    result := to + bytes;
  }

  method AppendLeU64(to: Bytes, value: U64) returns (result: Bytes)
    ensures result == to + LeU64(value)
  {
    hide LeU32;
    result := AppendLeU32(to, value % 0x1_0000_0000);
    result := AppendLeU32(result, value / 0x1_0000_0000);
  }

  method AppendBlob(to: Bytes, bytes: Bytes) returns (result: Bytes)
    ensures result == to + Blob(bytes)
  {
    hide LeU32;
    result := AppendLeU32(to, |bytes| % 0x1_0000_0000);
    result := result + bytes;
  }

  /** `BuildV2Envelope`. */
  method BuildV2Envelope(e: Envelope) returns (result: Bytes)
    ensures result == Layout(e)
  {
    hide LeU32, LeU64, Blob, SignatureEntries;
    result := MAGIC;
    result := AppendLeU32(result, FORMAT);
    result := result + [ChannelCode(e.channel)];
    result := result + [OsCode(e.os)];
    result := result + [ArchCode(e.arch)];
    result := AppendLeU64(result, e.version);
    result := AppendLeU64(result, ToU64(e.created));
    assert result == Header(e);
    result := AppendBlob(result, e.manifest);
    assert result == SignedRegion(e);
    result := AppendBlob(result, e.manifestSignature);
    result := AppendLeU32(result, |e.signatures| % 0x1_0000_0000);
    ghost var before := result;
    var i := 0;
    NoEntries();
    assert e.signatures[..0] == [];
    while i < |e.signatures|
      invariant 0 <= i <= |e.signatures|
      invariant result == before + SignatureEntries(e.signatures[..i])
    {
      result := AppendBlob(result, e.signatures[i].keyId);
      result := AppendBlob(result, e.signatures[i].bytes);
      OneMoreEntry(e.signatures, i);
      i := i + 1;
    }
    assert e.signatures[..i] == e.signatures;
    result := AppendBlob(result, e.payload);
  }

  lemma NoEntries()
    ensures SignatureEntries([]) == []
  {}

  lemma {:induction false} OneMoreEntry(signatures: seq<Signature>, i: nat)
    requires i < |signatures|
    ensures SignatureEntries(signatures[..i + 1])
         == SignatureEntries(signatures[..i]) + Blob(signatures[i].keyId) + Blob(signatures[i].bytes)
  {
    hide Blob;
    if i > 0 {
      OneMoreEntry(signatures[1..], i - 1);
      assert signatures[..i + 1][1..] == signatures[1..][..i];
      assert signatures[..i][1..] == signatures[1..][..i - 1];
    }
  }

  /** The reader over the bytes of a file. */
  class Reader {
    const data: Bytes
    var offset: nat

    ghost predicate Valid()
      reads this
    {
      offset <= |data|
    }

    ghost function Rest(): Bytes
      reads this
      requires Valid()
    {
      data[offset..]
    }

    constructor (data: Bytes)
      ensures Valid() && this.data == data && offset == 0
    {
      this.data, offset := data, 0;
    }

    method NextU8() returns (r: Option<Byte>)
      requires Valid()
      modifies this`offset
      ensures Valid() && (r.Some? <==> ReadU8(old(Rest())).Some?)
      ensures r.Some? ==> ReadU8(old(Rest())) == Some(Read(r.value, Rest()))
    {
      if 1 > |data| - offset { return None; }
      r := Some(data[offset]);
      offset := offset + 1;
    }

    method NextU32() returns (r: Option<U32>)
      requires Valid()
      modifies this`offset
      ensures Valid() && (r.Some? <==> ReadU32(old(Rest())).Some?)
      ensures r.Some? ==> ReadU32(old(Rest())) == Some(Read(r.value, Rest()))
    {
      if 4 > |data| - offset { return None; }
      assert data[offset..][0] == data[offset] && data[offset..][1] == data[offset + 1];
      assert data[offset..][2] == data[offset + 2] && data[offset..][3] == data[offset + 3];
      r := Some(FromLe(data[offset], data[offset + 1], data[offset + 2], data[offset + 3]));
      offset := offset + 4;
    }

    method NextU64() returns (r: Option<U64>)
      requires Valid()
      modifies this`offset
      ensures Valid() && (r.Some? <==> ReadU64(old(Rest())).Some?)
      ensures r.Some? ==> ReadU64(old(Rest())) == Some(Read(r.value, Rest()))
    {
      hide ReadU32;
      var low := NextU32();
      if low.None? { return None; }
      var high := NextU32();
      if high.None? { return None; }
      var v: U64 := low.value as int + 0x1_0000_0000 * high.value as int;
      r := Some(v);
    }

    /** A length between the bounds, then that many bytes. */
    method NextBlob(least: nat, most: U32) returns (r: Option<Bytes>)
      requires Valid()
      modifies this`offset
      ensures Valid() && (r.Some? <==> ReadBlob(old(Rest()), least, most).Some?)
      ensures r.Some? ==> ReadBlob(old(Rest()), least, most) == Some(Read(r.value, Rest()))
    {
      hide ReadU32;
      var length := NextU32();
      if length.None? || length.value < least || length.value > most { return None; }
      if length.value > |data| - offset { return None; }
      assert data[offset..][..length.value] == data[offset..offset + length.value];
      assert data[offset..][length.value..] == data[offset + length.value..];
      r := Some(data[offset..offset + length.value]);
      offset := offset + length.value;
    }
  }

  lemma {:induction false} EntriesStep(b: Bytes, l: Limits, k: nat, soFar: seq<Signature>, id: Read<Bytes>,
                                       sig: Read<Bytes>)
    requires ReadEntries(b, k, l).Some? && ReadEntries(b, k, l).value.value == soFar
    requires ReadBlob(ReadEntries(b, k, l).value.rest, l.least, l.keyId) == Some(id)
    requires ReadBlob(id.rest, l.least, l.signature) == Some(sig)
    ensures ReadEntries(b, k + 1, l) == Some(Read(soFar + [Signature(id.value, sig.value)], sig.rest))
    decreases k
  {
    hide ReadBlob;
    if k == 0 {
      NoneRead(sig.rest, l);
      assert [Signature(id.value, sig.value)] + [] == soFar + [Signature(id.value, sig.value)];
    } else {
      var first := ReadBlob(b, l.least, l.keyId).value;
      var second := ReadBlob(first.rest, l.least, l.signature).value;
      EntriesStep(second.rest, l, k - 1, soFar[1..], id, sig);
      assert soFar + [Signature(id.value, sig.value)]
        == [soFar[0]] + (soFar[1..] + [Signature(id.value, sig.value)]);
    }
  }

  /** When the next entry cannot be read, no longer list can. */
  lemma {:induction false} EntriesStop(b: Bytes, l: Limits, k: nat, count: nat)
    requires k < count && ReadEntries(b, k, l).Some?
    requires var rest := ReadEntries(b, k, l).value.rest;
             var id := ReadBlob(rest, l.least, l.keyId);
             id.None? || ReadBlob(id.value.rest, l.least, l.signature).None?
    ensures ReadEntries(b, count, l).None?
    decreases k
  {
    hide ReadBlob;
    if k > 0 {
      var first := ReadBlob(b, l.least, l.keyId).value;
      var second := ReadBlob(first.rest, l.least, l.signature).value;
      EntriesStop(second.rest, l, k - 1, count - 1);
    }
  }

  datatype Parsed = Parsed(envelope: Envelope, signedRegion: Bytes)

  /** The fixed-size fields of `ParseEnvelope`. */
  method ParseHead(reader: Reader) returns (r: Option<Head>)
    requires reader.Valid() && reader.offset == 0
    modifies reader`offset
    ensures reader.Valid() && (r.Some? <==> ReadHead(reader.data).Some?)
    ensures r.Some? ==> ReadHead(reader.data) == Some(Read(r.value, reader.Rest()))
  {
    hide ReadU32, ReadU64;
    if !(MAGIC <= reader.data) { return None; }
    reader.offset := 4;
    var format := reader.NextU32();
    if format.None? || format.value != FORMAT { return None; }
    ghost var target := reader.Rest();
    var channel := reader.NextU8();
    if channel.None? || channel.value > 3 { return None; }
    var os := reader.NextU8();
    if os.None? || os.value > 2 { return None; }
    var arch := reader.NextU8();
    if arch.None? || arch.value > 2 { return None; }
    var c, o, a := ChannelFrom(channel.value).value, OsFrom(os.value).value, ArchFrom(arch.value).value;
    assert ReadTarget(target) == Some(Read((c, o, a), reader.Rest()));
    var version := reader.NextU64();
    if version.None? { return None; }
    var created := reader.NextU64();
    if created.None? { return None; }
    r := Some(Head(c, o, a, version.value, ToI64(created.value)));
  }

  /** The loop of `ParseEnvelope` over the signatures. */
  method ParseEntries(reader: Reader, count: nat) returns (r: Option<seq<Signature>>)
    requires reader.Valid()
    modifies reader`offset
    ensures reader.Valid() && (r.Some? <==> ReadEntries(old(reader.Rest()), count, CLIENT).Some?)
    ensures r.Some? ==> ReadEntries(old(reader.Rest()), count, CLIENT) == Some(Read(r.value, reader.Rest()))
  {
    hide ReadBlob, ReadEntries;
    ghost var entries := reader.Rest();
    var signatures: seq<Signature> := [];
    var i := 0;
    NoneRead(entries, CLIENT);
    while i != count
      invariant 0 <= i <= count && reader.Valid()
      invariant ReadEntries(entries, i, CLIENT) == Some(Read(signatures, reader.Rest()))
    {
      ghost var rest := reader.Rest();
      var id := reader.NextBlob(CLIENT.least, CLIENT.keyId);
      if id.None? {
        EntriesStop(entries, CLIENT, i, count);
        return None;
      }
      ghost var idRead := Read(id.value, reader.Rest());
      var sig := reader.NextBlob(CLIENT.least, CLIENT.signature);
      if sig.None? {
        EntriesStop(entries, CLIENT, i, count);
        return None;
      }
      EntriesStep(entries, CLIENT, i, signatures, idRead, Read(sig.value, reader.Rest()));
      signatures := signatures + [Signature(id.value, sig.value)];
      i := i + 1;
    }
    r := Some(signatures);
  }

  /** The fields of `ParseEnvelope` after the manifest. */
  method ParseBody(reader: Reader, head: Head, manifest: Bytes) returns (r: Option<Envelope>)
    requires reader.Valid()
    modifies reader`offset
    ensures r == ReadBody(head, manifest, old(reader.Rest()), CLIENT)
  {
    hide ReadU32, ReadBlob, ReadEntries;
    var manifestSignature := reader.NextBlob(CLIENT.least, CLIENT.manifestSignature);
    if manifestSignature.None? { return None; }
    var count := reader.NextU32();
    if count.None? || count.value > CLIENT.signatures { return None; }
    var signatures := ParseEntries(reader, count.value);
    if signatures.None? { return None; }
    var payload := reader.NextBlob(CLIENT.least, CLIENT.payload);
    if payload.None? || reader.offset != |reader.data| { return None; }
    r := Some(Envelope(head.channel, head.os, head.arch, head.version, head.created, manifest,
                       manifestSignature.value, signatures.value, payload.value));
  }

  /** `ParseEnvelope`. */
  method ParseEnvelope(data: Bytes) returns (r: Option<Parsed>)
    ensures r.Some? <==> Decode(data, CLIENT).Some?
    ensures r.Some? ==> Decode(data, CLIENT) == Some(r.value.envelope)
    ensures r.Some? ==> r.value.signedRegion == SignedRegion(r.value.envelope) <= data
  {
    hide ReadHead, ReadBlob, ReadBody, Layout, SignedRegion, Body;
    var reader := new Reader(data);
    assert data[0..] == data;
    var head := ParseHead(reader);
    if head.None? { return None; }
    var manifest := reader.NextBlob(CLIENT.least, CLIENT.manifest);
    if manifest.None? { return None; }
    var signedRegion := data[..reader.offset];
    ghost var rest := reader.Rest();
    var e := ParseBody(reader, head.value, manifest.value);
    if e.None? { return None; }
    RegionIsPrefix(data, head.value, manifest.value, rest);
    r := Some(Parsed(e.value, signedRegion));
  }

  lemma NoneRead(b: Bytes, l: Limits)
    ensures ReadEntries(b, 0, l) == Some(Read([], b))
  {}

  lemma RegionIsPrefix(data: Bytes, head: Head, manifest: Bytes, rest: Bytes)
    requires ReadHead(data).Some? && ReadHead(data).value.value == head
    requires ReadBlob(ReadHead(data).value.rest, CLIENT.least, CLIENT.manifest) == Some(Read(manifest, rest))
    requires ReadBody(head, manifest, rest, CLIENT).Some?
    requires |rest| <= |data| && rest == data[|data| - |rest|..]
    ensures var e := ReadBody(head, manifest, rest, CLIENT).value;
            Decode(data, CLIENT) == Some(e) && data[..|data| - |rest|] == SignedRegion(e)
  {
    hide ReadHead, ReadBlob, ReadBody, Blob, Header, Body;
    var e := ReadBody(head, manifest, rest, CLIENT).value;
    BlobWrites(ReadHead(data).value.rest, CLIENT.least, CLIENT.manifest);
    BodyWrites(head, manifest, rest, CLIENT);
    HeadWrites(data, e);
    assert data == SignedRegion(e) + rest;
  }

  // ---- Embedding signatures ----

  /** What follows the signature section. */
  function AfterSignatures(e: Envelope): Bytes { Blob(e.payload) }

  /** What precedes the signature section. */
  function BeforeSignatures(e: Envelope): Bytes { SignedRegion(e) + Blob(e.manifestSignature) }

  /** Rebuilding a parsed unsigned envelope with signatures replaces the signature section and nothing else;
      in particular the bytes those signatures cover stay the same. */
  lemma EmbeddingChangesOnlySignatures(data: Bytes, signatures: seq<Signature>)
    requires Decode(data, CLIENT).Some? && Decode(data, CLIENT).value.signatures == []
    ensures var e := Decode(data, CLIENT).value;
            var rebuilt := e.(signatures := signatures);
            && data == BeforeSignatures(e) + LeU32(0) + AfterSignatures(e)
            && Layout(rebuilt) == BeforeSignatures(e) + SignatureSection(signatures) + AfterSignatures(e)
            && SignedRegion(rebuilt) == SignedRegion(e)
  {
    hide Decode, Layout, SignedRegion, BeforeSignatures, AfterSignatures, SignatureSection;
    var e := Decode(data, CLIENT).value;
    WritesWhatIsDecoded(data, CLIENT);
    EmptySection();
    SameRegion(e, signatures);
    SplitAtSignatures(e);
    SplitAtSignatures(e.(signatures := signatures));
  }

  lemma EmptySection()
    ensures SignatureSection([]) == LeU32(0)
  {
    hide LeU32;
    NoEntries();
  }

  lemma SplitAtSignatures(e: Envelope)
    ensures Layout(e) == BeforeSignatures(e) + SignatureSection(e.signatures) + AfterSignatures(e)
  {
    hide SignedRegion, Blob, SignatureSection;
  }

  lemma SameRegion(e: Envelope, signatures: seq<Signature>)
    ensures SignedRegion(e.(signatures := signatures)) == SignedRegion(e)
    ensures BeforeSignatures(e.(signatures := signatures)) == BeforeSignatures(e)
    ensures AfterSignatures(e.(signatures := signatures)) == AfterSignatures(e)
  {}

  /** The embedding step of `EmbedV2Signatures`, from the bytes of the unsigned file to those of the signed one. */
  method EmbedSignatures(data: Bytes, expected: Option<Channel>, signatures: seq<Signature>)
    returns (result: Option<Bytes>)
    ensures result.Some? <==>
      (Decode(data, CLIENT).Some? && signatures != []
       && var e := Decode(data, CLIENT).value; e.signatures == [] && (expected.Some? ==> expected.value == e.channel))
    ensures result.Some? ==> result.value == Layout(Decode(data, CLIENT).value.(signatures := signatures))
  {
    hide Decode, Layout;
    var parsed := ParseEnvelope(data);
    if parsed.None? { return None; }
    var e := parsed.value.envelope;
    if e.signatures != [] { return None; }
    if expected.Some? && expected.value != e.channel { return None; }
    if signatures == [] { return None; }
    var bytes := BuildV2Envelope(Envelope(e.channel, e.os, e.arch, e.version, e.created, e.manifest,
                                          e.manifestSignature, signatures, e.payload));
    result := Some(bytes);
  }

  /** A signed file is accepted by the client, with those signatures over the same bytes, exactly when the
      signatures respect the client's limits. */
  lemma EmbeddedIsReadable(data: Bytes, signatures: seq<Signature>)
    requires Decode(data, CLIENT).Some? && Decode(data, CLIENT).value.signatures == []
    ensures var rebuilt := Decode(data, CLIENT).value.(signatures := signatures);
            Decode(Layout(rebuilt), CLIENT) == Some(rebuilt)
            <==> (|signatures| <= CLIENT.signatures && forall s :: s in signatures ==>
                    Fits(s.keyId, 1, CLIENT.keyId) && Fits(s.bytes, 1, CLIENT.signature))
  {
    hide Decode, Layout;
    WritesWhatIsDecoded(data, CLIENT);
    ClientReadsExactly(Decode(data, CLIENT).value.(signatures := signatures));
  }
}
