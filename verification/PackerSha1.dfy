/** The packer's hand-written SHA-1 (`sha1Shift`, `sha1PartHash`, `hashSha1`). */
module PackerSha1 {
  import opened Fips180

  // The macros' boolean functions, as the packer writes them.
  function ChOr(b: Word, c: Word, d: Word): Word { (b & c) | (!b & d) }
  function MajOr(b: Word, c: Word, d: Word): Word { (b & c) | (b & d) | (c & d) }

  function Xor3(b: Word, c: Word, d: Word): Word { b ^ c ^ d }

  lemma OrFormsBitwise(b: Word, c: Word, d: Word)
    ensures (b & c) | (!b & d) == (b & c) ^ (!b & d)
    ensures (b & c) | (b & d) | (c & d) == (b & c) ^ (b & d) ^ (c & d)
  {}

  /** Both OR forms are the exclusive-or forms of FIPS 180-4, section 4.1.1. */
  lemma OrFormsAgree(b: Word, c: Word, d: Word)
    ensures ChOr(b, c, d) == Ch(b, c, d)
    ensures MajOr(b, c, d) == Maj(b, c, d)
  {
    OrFormsBitwise(b, c, d);
  }

  lemma Xor3IsParity(b: Word, c: Word, d: Word)
    ensures Xor3(b, c, d) == Parity(b, c, d)
  {}

  // `sha1Shift` by the three distances it is called with.
  function Sha1Shift1(v: Word): Word { (v << 1) | (v >> 31) }
  function Sha1Shift5(v: Word): Word { (v << 5) | (v >> 27) }
  function Sha1Shift30(v: Word): Word { (v << 30) | (v >> 2) }

  /** What is shifted out on the left comes in on the right: bit `i` of the argument becomes bit `i + n` of the result,
      counted modulo 32. */
  lemma ShiftedBits(x: Word, i: bv5)
    ensures Bit(Sha1Shift1(x), i + 1) == Bit(x, i)
    ensures Bit(Sha1Shift5(x), i + 5) == Bit(x, i)
    ensures Bit(Sha1Shift30(x), i + 30) == Bit(x, i)
  {}

  lemma ShiftsRotate(x: Word)
    ensures Sha1Shift1(x) == Rotl1(x) && Sha1Shift5(x) == Rotl5(x) && Sha1Shift30(x) == Rotl30(x)
  {}

  /** The `_shiftswap` macro on the five working variables. */
  function ShiftSwap(v: Hash, f: Word, k: Word, w: Word): Hash {
    Hash(Plus(Plus(Plus(Plus(Sha1Shift5(v.a), f), v.e), k), w), v.a, Sha1Shift30(v.b), v.c, v.d)
  }

  /** The word the `_shiftshiftswap` macro stores before its round. */
  function Expand(temp: seq<Word>, round: nat): Word
    requires 16 <= round <= |temp|
  {
    Sha1Shift1(temp[round - 3] ^ temp[round - 8] ^ temp[round - 14] ^ temp[round - 16])
  }

  ghost function State(sha: array<Word>): Hash
    reads sha
    requires sha.Length == 5
  {
    Hash(sha[0], sha[1], sha[2], sha[3], sha[4])
  }

  /** The first `n` words of `temp` are the message schedule of `m`. */
  ghost predicate Scheduled(temp: seq<Word>, m: seq<Word>, n: nat)
    requires |m| == 16 && n <= SCHEDULE_WORDS && n <= |temp|
  {
    forall i :: 0 <= i < n ==> temp[i] == W(m, i)
  }

  lemma ExpandIsSchedule(temp: seq<Word>, m: seq<Word>, round: nat)
    requires |m| == 16 && 16 <= round < SCHEDULE_WORDS && round <= |temp| && Scheduled(temp, m, round)
    ensures Expand(temp, round) == W(m, round)
  {}

  lemma ShiftSwapIsRound(m: seq<Word>, h: Hash, round: nat, f: Word)
    requires |m| == 16 && round < SCHEDULE_WORDS
    requires var v := Rounds(m, h, round); f == F(round, v.b, v.c, v.d)
    ensures ShiftSwap(Rounds(m, h, round), f, K(round), W(m, round)) == Rounds(m, h, round + 1)
  {
    hide F, K, W, Rounds, Sha1Shift5, Sha1Shift30, Rotl5, Rotl30, Plus;
    var v := Rounds(m, h, round);
    ShiftsRotate(v.a);
    ShiftsRotate(v.b);
    UnfoldRounds(m, h, round);
  }

  lemma UnfoldRounds(m: seq<Word>, h: Hash, round: nat)
    requires |m| == 16 && round < SCHEDULE_WORDS
    ensures Rounds(m, h, round + 1) == Round(m, Rounds(m, h, round), round)
  {
    hide Round, W, F, K;
  }

  lemma ChRound(m: seq<Word>, h: Hash, round: nat)
    requires |m| == 16 && round < 20
    ensures var v := Rounds(m, h, round);
            ShiftSwap(v, ChOr(v.b, v.c, v.d), 0x5a827999, W(m, round)) == Rounds(m, h, round + 1)
  {
    hide ShiftSwap, Rounds, W, Ch, ChOr;
    var v := Rounds(m, h, round);
    OrFormsAgree(v.b, v.c, v.d);
    ShiftSwapIsRound(m, h, round, ChOr(v.b, v.c, v.d));
  }

  lemma ParityRound(m: seq<Word>, h: Hash, round: nat)
    requires |m| == 16 && (20 <= round < 40 || 60 <= round < 80)
    ensures var v := Rounds(m, h, round);
            ShiftSwap(v, Xor3(v.b, v.c, v.d), if round < 40 then 0x6ed9eba1 else 0xca62c1d6, W(m, round))
            == Rounds(m, h, round + 1)
  {
    hide ShiftSwap, Rounds, W, Parity, Xor3;
    var v := Rounds(m, h, round);
    Xor3IsParity(v.b, v.c, v.d);
    ShiftSwapIsRound(m, h, round, Xor3(v.b, v.c, v.d));
  }

  lemma MajRound(m: seq<Word>, h: Hash, round: nat)
    requires |m| == 16 && 40 <= round < 60
    ensures var v := Rounds(m, h, round);
            ShiftSwap(v, MajOr(v.b, v.c, v.d), 0x8f1bbcdc, W(m, round)) == Rounds(m, h, round + 1)
  {
    hide ShiftSwap, Rounds, W, Maj, MajOr;
    var v := Rounds(m, h, round);
    OrFormsAgree(v.b, v.c, v.d);
    ShiftSwapIsRound(m, h, round, MajOr(v.b, v.c, v.d));
  }

  /** The store the `_shiftshiftswap` macro makes before its round. */
  method ExpandAt(temp: array<Word>, round: nat, ghost m: seq<Word>)
    requires temp.Length == SCHEDULE_WORDS && 16 <= round < SCHEDULE_WORDS
    requires |m| == 16 && Scheduled(temp[..], m, round)
    modifies temp
    ensures Scheduled(temp[..], m, round + 1) && temp[round] == W(m, round)
  {
    hide W, Expand;
    ExpandIsSchedule(temp[..], m, round);
    temp[round] := Expand(temp[..], round);
  }

  lemma ScheduledAt(temp: seq<Word>, m: seq<Word>, i: nat)
    requires |m| == 16 && i < 16 <= |temp| && Scheduled(temp, m, 16)
    ensures temp[i] == W(m, i)
  {}

  /** The five additions that close a block. */
  method AddTo(sha: array<Word>, v: Hash)
    requires sha.Length == 5
    modifies sha
    ensures State(sha) == Sum(old(State(sha)), v)
  {
    hide Plus;
    sha[0] := Plus(sha[0], v.a);
    sha[1] := Plus(sha[1], v.b);
    sha[2] := Plus(sha[2], v.c);
    sha[3] := Plus(sha[3], v.d);
    sha[4] := Plus(sha[4], v.e);
  }

  lemma NoRounds(m: seq<Word>, h: Hash)
    requires |m| == 16
    ensures Rounds(m, h, 0) == h
  {}

  method PartHash(sha: array<Word>, temp: array<Word>)
    requires sha.Length == 5 && temp.Length == SCHEDULE_WORDS && sha != temp
    modifies sha, temp
    ensures State(sha) == Compress(old(State(sha)), old(temp[..16]))
  {
    hide Scheduled, ShiftSwap, ChOr, MajOr, Xor3, W, F, K, Rounds, Sum;
    ghost var m := temp[..16];
    ghost var h := State(sha);
    var v, round := Hash(sha[0], sha[1], sha[2], sha[3], sha[4]), 0;
    Schedule16(temp[..], m);
    NoRounds(m, h);

    while round < 16
      invariant 0 <= round <= 16 && Scheduled(temp[..], m, 16)
      invariant State(sha) == h && v == Rounds(m, h, round)
    {
      ScheduledAt(temp[..], m, round);
      ChRound(m, h, round);
      v, round := ShiftSwap(v, ChOr(v.b, v.c, v.d), 0x5a827999, temp[round]), round + 1;
    }
    while round < 20
      invariant 16 <= round <= 20 && Scheduled(temp[..], m, round)
      invariant State(sha) == h && v == Rounds(m, h, round)
    {
      ExpandAt(temp, round, m);
      ChRound(m, h, round);
      v, round := ShiftSwap(v, ChOr(v.b, v.c, v.d), 0x5a827999, temp[round]), round + 1;
    }
    while round < 40
      invariant 20 <= round <= 40 && Scheduled(temp[..], m, round)
      invariant State(sha) == h && v == Rounds(m, h, round)
    {
      ExpandAt(temp, round, m);
      ParityRound(m, h, round);
      v, round := ShiftSwap(v, Xor3(v.b, v.c, v.d), 0x6ed9eba1, temp[round]), round + 1;
    }
    while round < 60
      invariant 40 <= round <= 60 && Scheduled(temp[..], m, round)
      invariant State(sha) == h && v == Rounds(m, h, round)
    {
      ExpandAt(temp, round, m);
      MajRound(m, h, round);
      v, round := ShiftSwap(v, MajOr(v.b, v.c, v.d), 0x8f1bbcdc, temp[round]), round + 1;
    }
    while round < 80
      invariant 60 <= round <= 80 && Scheduled(temp[..], m, round)
      invariant State(sha) == h && v == Rounds(m, h, round)
    {
      ExpandAt(temp, round, m);
      ParityRound(m, h, round);
      v, round := ShiftSwap(v, Xor3(v.b, v.c, v.d), 0xca62c1d6, temp[round]), round + 1;
    }
    AddTo(sha, v);
  }

  lemma Schedule16(temp: seq<Word>, m: seq<Word>)
    requires |temp| == SCHEDULE_WORDS && m == temp[..16]
    ensures Scheduled(temp, m, 16)
  {}

  /** The byte `v` in lane `k` of a big-endian word: the packer's shift by `(3 - k) << 3`. */
  function Lane(v: Byte, k: nat): Word
    requires k < 4
  {
    if k == 0 then (v as Word) << 24 else if k == 1 then (v as Word) << 16
    else if k == 2 then (v as Word) << 8 else v as Word
  }

  /** Byte `k` of a word: the packer's shift right by `((3 - k) & 3) << 3`. */
  function ByteAt(w: Word, k: nat): Byte
    requires k < 4
  {
    if k == 0 then ((w >> 24) & 0xFF) as Byte else if k == 1 then ((w >> 16) & 0xFF) as Byte
    else if k == 2 then ((w >> 8) & 0xFF) as Byte else (w & 0xFF) as Byte
  }

  /** The first `n` of `bytes`, then zeros up to the end of a block. */
  function ZeroFilled(bytes: seq<Byte>, n: nat): (p: seq<Byte>)
    requires n <= |bytes| && n <= BLOCK_BYTES
    ensures |p| == BLOCK_BYTES
  {
    bytes[..n] + Zeros(BLOCK_BYTES - n)
  }

  lemma OrLane0(v: Byte)
    ensures WordOf(0, 0, 0, 0) | Lane(v, 0) == WordOf(v, 0, 0, 0)
  {}
  lemma OrLane1(b0: Byte, v: Byte)
    ensures WordOf(b0, 0, 0, 0) | Lane(v, 1) == WordOf(b0, v, 0, 0)
  {}
  lemma OrLane2(b0: Byte, b1: Byte, v: Byte)
    ensures WordOf(b0, b1, 0, 0) | Lane(v, 2) == WordOf(b0, b1, v, 0)
  {}
  lemma OrLane3(b0: Byte, b1: Byte, b2: Byte, v: Byte)
    ensures WordOf(b0, b1, b2, 0) | Lane(v, 3) == WordOf(b0, b1, b2, v)
  {}

  /** OR-ing a byte into its lane of a word whose later lanes are zero stores it there. */
  lemma OrInLane(p: seq<Byte>, w: nat, k: nat, v: Byte)
    requires 4 * w + 3 < |p| && k < 4
    requires forall j :: 4 * w + k <= j < 4 * w + 4 ==> p[j] == 0
    ensures var q := p[4 * w + k := v];
            WordOf(p[4 * w], p[4 * w + 1], p[4 * w + 2], p[4 * w + 3]) | Lane(v, k)
            == WordOf(q[4 * w], q[4 * w + 1], q[4 * w + 2], q[4 * w + 3])
  {
    hide Lane, WordOf;
    if k == 0 {
      assert p[4 * w] == p[4 * w + 1] == p[4 * w + 2] == p[4 * w + 3] == 0;
      OrLane0(v);
    } else if k == 1 {
      assert p[4 * w + 1] == p[4 * w + 2] == p[4 * w + 3] == 0;
      OrLane1(p[4 * w], v);
    } else if k == 2 {
      assert p[4 * w + 2] == p[4 * w + 3] == 0;
      OrLane2(p[4 * w], p[4 * w + 1], v);
    } else {
      OrLane3(p[4 * w], p[4 * w + 1], p[4 * w + 2], v);
    }
  }

  lemma WordAt(p: seq<Byte>, i: nat)
    requires |p| == BLOCK_BYTES && i < 16
    ensures Words(p)[i] == WordOf(p[4 * i], p[4 * i + 1], p[4 * i + 2], p[4 * i + 3])
  {
    hide WordOf;
  }

  lemma UpdateWord(p: seq<Byte>, w: nat, k: nat, v: Byte)
    requires |p| == BLOCK_BYTES && w < 16 && k < 4
    requires forall j :: 4 * w + k <= j < 4 * w + 4 ==> p[j] == 0
    ensures Words(p[4 * w + k := v]) == Words(p)[w := Words(p)[w] | Lane(v, k)]
  {
    hide Lane, WordOf, Words;
    var q := p[4 * w + k := v];
    OrInLane(p, w, k, v);
    forall i | 0 <= i < 16 ensures Words(q)[i] == if i == w then Words(p)[w] | Lane(v, k) else Words(p)[i] {
      WordAt(p, i);
      WordAt(q, i);
    }
  }

  /** OR-ing the next byte into its word extends the zero-filled block by that byte. */
  lemma OrByte(bytes: seq<Byte>, n: nat)
    requires n < |bytes| && n < BLOCK_BYTES
    ensures var before, after := Words(ZeroFilled(bytes, n)), Words(ZeroFilled(bytes, n + 1));
            after == before[n / 4 := before[n / 4] | Lane(bytes[n], n % 4)]
  {
    hide Lane, Words;
    var w, k := n / 4, n % 4;
    assert ZeroFilled(bytes, n + 1) == ZeroFilled(bytes, n)[4 * w + k := bytes[n]];
    UpdateWord(ZeroFilled(bytes, n), w, k, bytes[n]);
  }

  /** A word read from the buffer, byte by byte from the lowest. */
  function LoadWord(b0: Byte, b1: Byte, b2: Byte, b3: Byte): Word {
    (b3 as Word) | ((b2 as Word) << 8) | ((b1 as Word) << 16) | ((b0 as Word) << 24)
  }

  lemma LoadWordIsWordOf(b0: Byte, b1: Byte, b2: Byte, b3: Byte)
    ensures LoadWord(b0, b1, b2, b3) == WordOf(b0, b1, b2, b3)
  {}

  /** The 32-bit word with the value `n`. */
  function Uint32(n: nat): Word
    requires n < 0x1_0000_0000
  {
    WordOf(ByteOf(n / 0x100_0000 % 256), ByteOf(n / 0x1_0000 % 256), ByteOf(n / 0x100 % 256), ByteOf(n % 256))
  }

  /** `len << 3` in 32 bits, written as the 64-bit length field: the upper half is always zero. */
  function WrittenLength(len: nat): seq<Byte> {
    LengthField(8 * len % 0x1_0000_0000)
  }

  /** The padded message the packer hashes. */
  function WrittenPad(message: seq<Byte>): seq<Byte> {
    PadWith(message, WrittenLength(|message|))
  }

  lemma ZeroByte(v: nat)
    requires v < 256
    ensures ByteOf(v) == 0 <==> v == 0
  {}

  lemma HighBytes(n: nat)
    requires 0x1_0000_0000 <= n < 0x1_0000_0000_0000_0000
    ensures n / 0x100_0000_0000_0000 % 256 != 0 || n / 0x1_0000_0000_0000 % 256 != 0
         || n / 0x100_0000_0000 % 256 != 0 || n / 0x1_0000_0000 % 256 != 0
  {}

  lemma HighHalf(n: nat)
    requires n < 0x1_0000_0000_0000_0000
    ensures LengthField(n)[..4] == [0, 0, 0, 0] <==> n < 0x1_0000_0000
  {
    hide ByteOf;
    ZeroByte(n / 0x100_0000_0000_0000 % 256);
    ZeroByte(n / 0x1_0000_0000_0000 % 256);
    ZeroByte(n / 0x100_0000_0000 % 256);
    ZeroByte(n / 0x1_0000_0000 % 256);
    if n >= 0x1_0000_0000 {
      HighBytes(n);
      assert LengthField(n)[..4][0] != 0 || LengthField(n)[..4][1] != 0
          || LengthField(n)[..4][2] != 0 || LengthField(n)[..4][3] != 0;
    }
  }

  lemma PadEndsInLength(message: seq<Byte>, length: seq<Byte>)
    requires |length| == 8
    ensures var p := PadWith(message, length); |p| >= 8 && p[|p| - 8..] == length
  {}

  /** The packer's padding is the standard's exactly for messages shorter than 2^29 bytes. */
  lemma PaddingExact(message: seq<Byte>)
    requires 8 * |message| < 0x1_0000_0000_0000_0000
    ensures WrittenPad(message) == Pad(message) <==> |message| < 0x2000_0000
  {
    hide LengthField, PadWith;
    var n := 8 * |message|;
    HighHalf(n % 0x1_0000_0000);
    HighHalf(n);
    PadEndsInLength(message, WrittenLength(|message|));
    PadEndsInLength(message, LengthField(n));
  }

  /** Storing the length word into the last word of a block that ends in zeros. */
  lemma LengthWord(b: seq<Byte>, n: nat)
    requires |b| == BLOCK_BYTES && n < 0x1_0000_0000
    requires forall j :: 56 <= j < 64 ==> b[j] == 0
    ensures Words(b[..56] + LengthField(n)) == Words(b)[15 := Uint32(n)]
  {
    hide WordOf, Words, LengthField, Uint32;
    var field := LengthField(n);
    var q := b[..56] + field;
    LengthBytes(n);
    assert q[56..] == field;
    forall i | 0 <= i < 16 ensures Words(q)[i] == if i == 15 then Uint32(n) else Words(b)[i] {
      WordAt(b, i);
      WordAt(q, i);
    }
  }

  /** The length field of a length below 2^32: four zeros, and the bytes of its word. */
  lemma LengthBytes(n: nat)
    requires n < 0x1_0000_0000
    ensures var f := LengthField(n);
      |f| == 8 && f[0] == f[1] == f[2] == f[3] == 0 && WordOf(f[4], f[5], f[6], f[7]) == Uint32(n)
  {
    hide WordOf;
    ZeroByte(0);
  }

  /** The blocks of the padded message that follow its whole blocks. */
  lemma TailBlocks(message: seq<Byte>, length: seq<Byte>)
    requires |length| == 8
    ensures var q, r, p := |message| / 64, |message| % 64, PadWith(message, length);
            var tail := ZeroFilled(message[64 * q..] + [0x80], r + 1);
            && (r < 56 ==> |p| == 64 * (q + 1) && p[64 * q..64 * (q + 1)] == tail[..56] + length)
            && (r >= 56 ==> |p| == 64 * (q + 2) && p[64 * q..64 * (q + 1)] == tail)
            && (r >= 56 ==> p[64 * (q + 1)..64 * (q + 2)] == Zeros(64)[..56] + length)
  {
  }

  /** Loads one whole block into the first sixteen words. */
  method LoadBlock(buf: array<Byte>, block: nat, temp: array<Word>)
    requires block + BLOCK_BYTES <= buf.Length && temp.Length == SCHEDULE_WORDS
    modifies temp
    ensures temp[..16] == Words(buf[block..block + BLOCK_BYTES])
  {
    hide WordOf, LoadWord;
    ghost var bytes := buf[block..block + BLOCK_BYTES];
    var at, i := block, 0;
    while at < block + BLOCK_BYTES
      invariant 0 <= i <= 16 && at == block + 4 * i
      invariant forall j :: 0 <= j < i ==> temp[j] == Words(bytes)[j]
    {
      LoadWordIsWordOf(buf[at], buf[at + 1], buf[at + 2], buf[at + 3]);
      temp[i] := LoadWord(buf[at], buf[at + 1], buf[at + 2], buf[at + 3]);
      assert temp[i] == Words(bytes)[i];
      at, i := at + 4, i + 1;
    }
  }

  /** `memset` of the first sixteen words. */
  method ClearBlock(temp: array<Word>)
    requires temp.Length == SCHEDULE_WORDS
    modifies temp
    ensures temp[..16] == Words(Zeros(BLOCK_BYTES))
  {
    forall i | 0 <= i < 16 { temp[i] := 0; }
    ZeroWord();
  }

  lemma ZeroWord()
    ensures WordOf(0, 0, 0, 0) == 0
  {}

  /** ORs byte number `n` of a block into its word. */
  method OrInto(temp: array<Word>, n: nat, v: Byte)
    requires temp.Length == SCHEDULE_WORDS && n < BLOCK_BYTES
    modifies temp
    ensures temp[..16] == old(temp[..16])[n / 4 := old(temp[n / 4]) | Lane(v, n % 4)]
  {
    hide Lane;
    temp[n / 4] := temp[n / 4] | Lane(v, n % 4);
  }

  /** ORs the remaining bytes and the 0x80 mark into a cleared block. */
  method LoadTail(buf: array<Byte>, block: nat, temp: array<Word>)
    requires block <= buf.Length < block + BLOCK_BYTES && temp.Length == SCHEDULE_WORDS
    modifies temp
    ensures var end := buf.Length - block;
            temp[..16] == Words(ZeroFilled(buf[block..] + [0x80], end + 1))
  {
    hide Lane, WordOf, Words;
    ghost var bytes := buf[block..] + [0x80];
    var end := buf.Length - block;
    ClearBlock(temp);
    var last := 0;
    assert ZeroFilled(bytes, 0) == Zeros(BLOCK_BYTES);
    while last < end
      invariant 0 <= last <= end && temp[..16] == Words(ZeroFilled(bytes, last))
    {
      OrByte(bytes, last);
      OrInto(temp, last, buf[last + block]);
      last := last + 1;
    }
    OrByte(bytes, last);
    OrInto(temp, last, 0x80);
  }

  /** Writes the five words out, highest index first. */
  method StoreDigest(sha: array<Word>, dest: array<Byte>)
    requires sha.Length == 5 && dest.Length >= 20
    modifies dest
    ensures dest[..20] == HashBytes(State(sha))
    ensures dest[20..] == old(dest[20..])
  {
    hide ByteAt, BytesOf;
    ghost var digest := HashBytes(State(sha));
    var i := 19;
    while i >= 0
      invariant -1 <= i < 20
      invariant forall j :: i < j < 20 ==> dest[j] == digest[j]
      invariant dest[20..] == old(dest[20..])
    {
      ByteAtIsBytesOf(sha[i / 4], i % 4);
      dest[i] := ByteAt(sha[i / 4], i % 4);
      DigestByte(State(sha), i);
      i := i - 1;
    }
  }

  lemma ByteAtIsBytesOf(w: Word, k: nat)
    requires k < 4
    ensures |BytesOf(w)| == 4 && ByteAt(w, k) == BytesOf(w)[k]
  {}

  lemma DigestByte(h: Hash, i: nat)
    requires i < 20
    ensures |BytesOf([h.a, h.b, h.c, h.d, h.e][i / 4])| == 4
    ensures HashBytes(h)[i] == BytesOf([h.a, h.b, h.c, h.d, h.e][i / 4])[i % 4]
  {
    FourBytes(h.a);
    FourBytes(h.b);
    FourBytes(h.c);
    FourBytes(h.d);
    FourBytes(h.e);
    hide BytesOf;
  }

  lemma FourBytes(w: Word)
    ensures |BytesOf(w)| == 4
  {}

  lemma NoBlocks(padded: seq<Byte>)
    ensures HashBlocks(padded, 0) == INITIAL
  {}

  lemma NextBlock(padded: seq<Byte>, n: nat)
    requires BLOCK_BYTES * (n + 1) <= |padded|
    ensures HashBlocks(padded, n + 1)
         == Compress(HashBlocks(padded, n), Words(padded[BLOCK_BYTES * n..BLOCK_BYTES * (n + 1)]))
  {
    hide Compress, Words;
  }

  /** The words of the last one or two blocks of the padded message. */
  lemma TailWords(message: seq<Byte>)
    ensures var q, r, p := |message| / 64, |message| % 64, WrittenPad(message);
            var tail := Words(ZeroFilled(message[64 * q..] + [0x80], r + 1));
            var length := Uint32(8 * |message| % 0x1_0000_0000);
            && (r < 56 ==> |p| == 64 * (q + 1) && Words(p[64 * q..64 * (q + 1)]) == tail[15 := length])
            && (r >= 56 ==> |p| == 64 * (q + 2) && Words(p[64 * q..64 * (q + 1)]) == tail)
            && (r >= 56 ==> Words(p[64 * (q + 1)..64 * (q + 2)]) == Words(Zeros(64))[15 := length])
  {
    hide Words, LengthField, PadWith, Uint32;
    var q, r, n := |message| / 64, |message| % 64, 8 * |message| % 0x1_0000_0000;
    TailBlocks(message, WrittenLength(|message|));
    if r < 56 {
      LengthWord(ZeroFilled(message[64 * q..] + [0x80], r + 1), n);
    } else {
      LengthWord(Zeros(64), n);
    }
  }

  // ---- The loop over the whole blocks, in 32 bits ----

  const WIDTH := 0x1_0000_0000

  function EndOf(block: nat): nat { (block + 64) % WIDTH }

  lemma EndOfIs(q: nat)
    requires 64 * q < WIDTH
    ensures EndOf(64 * q) == if q + 1 < WIDTH / 64 then 64 * (q + 1) else 0
  {}

  /** Where the inner loop stops: it adds 4 as long as it is below the end. */
  function Advanced(block: nat, end: nat): nat
    requires end < WIDTH
    decreases end - block
  {
    if block < end then Advanced(block + 4, end) else block
  }

  /** The offset after `n` rounds of the outer loop, if it gets that far. */
  function BlockAfter(n: nat): nat {
    if n == 0 then 0 else Advanced(BlockAfter(n - 1), EndOf(BlockAfter(n - 1)))
  }

  lemma {:induction false} AdvancedBy(block: nat, k: nat)
    requires block + 4 * k < WIDTH
    ensures Advanced(block, block + 4 * k) == block + 4 * k
    decreases k
  {
    if k > 0 {
      AdvancedBy(block + 4, k - 1);
    }
  }

  lemma {:induction false} BlocksAre(n: nat)
    ensures BlockAfter(n) == 64 * if n < WIDTH / 64 then n else WIDTH / 64 - 1
  {
    if n > 0 {
      BlocksAre(n - 1);
      var q := if n - 1 < WIDTH / 64 then n - 1 else WIDTH / 64 - 1;
      EndOfIs(q);
      hide EndOf;
      if n < WIDTH / 64 {
        AdvancedBy(64 * q, 16);
      }
    }
  }

  /** For lengths from 2^32 - 64 up the offset stays at 2^32 - 64 for ever, since the sum with 64 wraps to 0. For all
      others the loop ends, exactly when fewer than 64 bytes are left. */
  lemma LoopEnds(len: nat)
    requires len < WIDTH
    ensures (exists n: nat :: EndOf(BlockAfter(n)) > len) <==> len + 64 < WIDTH
    ensures len + 64 < WIDTH ==> EndOf(BlockAfter(len / 64)) > len
    ensures len + 64 < WIDTH ==> forall n: nat :: n < len / 64 ==> EndOf(BlockAfter(n)) <= len
  {
    forall n: nat
      ensures EndOf(BlockAfter(n)) == if n + 1 < WIDTH / 64 then 64 * (n + 1) else 0
    {
      BlocksAre(n);
      EndOfIs(if n < WIDTH / 64 then n else WIDTH / 64 - 1);
    }
    hide EndOf, BlockAfter;
    var q := len / 64;
    if len + 64 < WIDTH {
      assert q + 1 < WIDTH / 64 && EndOf(BlockAfter(q)) > len;
    } else {
      assert q + 1 == WIDTH / 64;
    }
  }

  /** Hashes the whole blocks of the buffer, of any length for which the loop ends. */
  method HashWholeBlocks(buf: array<Byte>, sha: array<Word>, temp: array<Word>) returns (block: nat)
    requires buf.Length + 64 < WIDTH
    requires sha.Length == 5 && temp.Length == SCHEDULE_WORDS && sha != temp
    requires State(sha) == INITIAL
    modifies sha, temp
    ensures block == 64 * (buf.Length / 64) && block <= |WrittenPad(buf[..])|
    ensures State(sha) == HashBlocks(WrittenPad(buf[..]), block / 64)
  {
    hide HashBlocks, Compress, Words, LengthField, PadWith, EndOf;
    ghost var padded := WrittenPad(buf[..]);
    NoBlocks(padded);
    EndOfIs(0);
    block := 0;
    var end := EndOf(block);
    while end <= buf.Length
      invariant 0 <= block <= buf.Length && block % 64 == 0 && end == block + 64
      invariant State(sha) == HashBlocks(padded, block / 64)
      decreases buf.Length - block
    {
      LoadBlock(buf, block, temp);
      NextBlock(padded, block / 64);
      assert padded[block..block + 64] == buf[block..block + 64];
      PartHash(sha, temp);
      block := end;
      EndOfIs(block / 64);
      end := EndOf(block);
    }
  }

  /** Hashes what follows the whole blocks: one block, or two when the length does not fit. */
  method HashTail(buf: array<Byte>, block: nat, sha: array<Word>, temp: array<Word>)
    requires block == 64 * (buf.Length / 64) && block <= |WrittenPad(buf[..])|
    requires sha.Length == 5 && temp.Length == SCHEDULE_WORDS && sha != temp
    requires State(sha) == HashBlocks(WrittenPad(buf[..]), block / 64)
    modifies sha, temp
    ensures State(sha) == HashBlocks(WrittenPad(buf[..]), |WrittenPad(buf[..])| / 64)
  {
    hide HashBlocks, Compress, Words, LengthField, WrittenPad, ZeroFilled, Uint32;
    ghost var message := buf[..];
    ghost var q := block / 64;
    TailWords(message);
    LoadTail(buf, block, temp);
    assert buf[block..] == message[64 * q..];
    NextBlock(WrittenPad(message), q);
    if buf.Length - block >= 56 {
      PartHash(sha, temp);
      ClearBlock(temp);
      NextBlock(WrittenPad(message), q + 1);
    }
    ghost var words := temp[..16];
    temp[15] := Uint32(8 * buf.Length % 0x1_0000_0000);
    assert temp[..16] == words[15 := Uint32(8 * |message| % 0x1_0000_0000)];
    PartHash(sha, temp);
  }

  /** `hashSha1`, for every length for which its loop ends. */
  method HashSha1(buf: array<Byte>, dest: array<Byte>)
    requires buf.Length + 64 < WIDTH && dest.Length >= 20
    modifies dest
    ensures dest[..20] == DigestOfPadded(WrittenPad(old(buf[..])))
    ensures buf.Length < 0x2000_0000 ==> dest[..20] == Digest(old(buf[..]))
    ensures dest[20..] == old(dest[20..])
  {
    hide HashBlocks, Compress, Words, LengthField, PadWith, HashBytes;
    ghost var message := buf[..];
    var sha, temp := new Word[5], new Word[80];
    sha[0], sha[1], sha[2], sha[3], sha[4] := 0x67452301, 0xefcdab89, 0x98badcfe, 0x10325476, 0xc3d2e1f0;
    var block := HashWholeBlocks(buf, sha, temp);
    HashTail(buf, block, sha, temp);
    StoreDigest(sha, dest);
    PaddingExact(message);
  }
}
