/** SHA-1 as FIPS 180-4 defines it: the reference the packer's hash is compared with. */
module Fips180 {
  type Byte = bv8
  type Word = bv32

  const BLOCK_BYTES := 64
  const SCHEDULE_WORDS := 80

  /** The five working variables, and also the five words of an intermediate hash value. */
  datatype Hash = Hash(a: Word, b: Word, c: Word, d: Word, e: Word)

  const INITIAL := Hash(0x67452301, 0xefcdab89, 0x98badcfe, 0x10325476, 0xc3d2e1f0)

  // Section 3.2: addition modulo 2^32, and rotation by a number of bits known where it is used.
  function Plus(x: Word, y: Word): Word { x + y }
  function Rotl1(x: Word): Word { x.RotateLeft(1) }
  function Rotl5(x: Word): Word { x.RotateLeft(5) }
  function Rotl30(x: Word): Word { x.RotateLeft(30) }

  /** One bit of a word; positions count modulo 32. */
  function Bit(x: Word, i: bv5): bv1 { ((x >> i) & 1) as bv1 }

  // Section 4.1.1.
  function Ch(x: Word, y: Word, z: Word): Word { (x & y) ^ (!x & z) }
  function Parity(x: Word, y: Word, z: Word): Word { x ^ y ^ z }
  function Maj(x: Word, y: Word, z: Word): Word { (x & y) ^ (x & z) ^ (y & z) }

  function F(t: nat, x: Word, y: Word, z: Word): Word
    requires t < SCHEDULE_WORDS
  {
    if t < 20 then Ch(x, y, z) else if t < 40 then Parity(x, y, z)
    else if t < 60 then Maj(x, y, z) else Parity(x, y, z)
  }

  // Section 4.2.1.
  function K(t: nat): Word
    requires t < SCHEDULE_WORDS
  {
    if t < 20 then 0x5a827999 else if t < 40 then 0x6ed9eba1
    else if t < 60 then 0x8f1bbcdc else 0xca62c1d6
  }

  /** Section 6.1.2, step 1: the message schedule of one block. */
  function W(m: seq<Word>, t: nat): Word
    requires |m| == 16 && t < SCHEDULE_WORDS
  {
    if t < 16 then m[t]
    else Rotl1(W(m, t - 3) ^ W(m, t - 8) ^ W(m, t - 14) ^ W(m, t - 16))
  }

  /** Section 6.1.2, step 3: one round. */
  function Round(m: seq<Word>, v: Hash, t: nat): Hash
    requires |m| == 16 && t < SCHEDULE_WORDS
  {
    var temp := Plus(Plus(Plus(Plus(Rotl5(v.a), F(t, v.b, v.c, v.d)), v.e), K(t)), W(m, t));
    Hash(temp, v.a, Rotl30(v.b), v.c, v.d)
  }

  function Rounds(m: seq<Word>, v: Hash, n: nat): Hash
    requires |m| == 16 && n <= SCHEDULE_WORDS
  {
    if n == 0 then v else Round(m, Rounds(m, v, n - 1), n - 1)
  }

  function Sum(h: Hash, v: Hash): Hash {
    Hash(Plus(h.a, v.a), Plus(h.b, v.b), Plus(h.c, v.c), Plus(h.d, v.d), Plus(h.e, v.e))
  }

  /** Section 6.1.2, steps 2 to 4. */
  function Compress(h: Hash, m: seq<Word>): Hash
    requires |m| == 16
  {
    Sum(h, Rounds(m, h, SCHEDULE_WORDS))
  }

  function WordOf(b0: Byte, b1: Byte, b2: Byte, b3: Byte): Word {
    ((b0 as Word) << 24) | ((b1 as Word) << 16) | ((b2 as Word) << 8) | (b3 as Word)
  }

  /** Section 5.2.1: the sixteen big-endian words of one block. */
  function Words(block: seq<Byte>): (m: seq<Word>)
    requires |block| == BLOCK_BYTES
    ensures |m| == 16
  {
    seq(16, i requires 0 <= i < 16 =>
      WordOf(block[4 * i], block[4 * i + 1], block[4 * i + 2], block[4 * i + 3]))
  }

  function Zeros(n: nat): seq<Byte> { seq(n, _ => 0) }

  function ByteOf(v: nat): Byte
    requires v < 256
  {
    v as Byte
  }

  /** The 64-bit big-endian form of a number of bits. */
  function LengthField(bits: nat): (f: seq<Byte>)
    ensures |f| == 8
  {
    [ByteOf(bits / 0x100_0000_0000_0000 % 256), ByteOf(bits / 0x1_0000_0000_0000 % 256),
     ByteOf(bits / 0x100_0000_0000 % 256), ByteOf(bits / 0x1_0000_0000 % 256),
     ByteOf(bits / 0x100_0000 % 256), ByteOf(bits / 0x1_0000 % 256),
     ByteOf(bits / 0x100 % 256), ByteOf(bits % 256)]
  }

  /** Section 5.1.1, with the length field left as a parameter. */
  function PadWith(message: seq<Byte>, length: seq<Byte>): (p: seq<Byte>)
    requires |length| == 8
    ensures |p| % BLOCK_BYTES == 0 && message <= p
  {
    message + [0x80] + Zeros((55 - |message|) % 64) + length
  }

  function Pad(message: seq<Byte>): seq<Byte> {
    PadWith(message, LengthField(8 * |message|))
  }

  /** The intermediate hash value after the first `n` blocks of a padded message. */
  function HashBlocks(padded: seq<Byte>, n: nat): Hash
    requires BLOCK_BYTES * n <= |padded|
  {
    if n == 0 then INITIAL
    else Compress(HashBlocks(padded, n - 1), Words(padded[BLOCK_BYTES * (n - 1)..BLOCK_BYTES * n]))
  }

  function BytesOf(w: Word): seq<Byte> {
    [((w >> 24) & 0xFF) as Byte, ((w >> 16) & 0xFF) as Byte, ((w >> 8) & 0xFF) as Byte, (w & 0xFF) as Byte]
  }

  function HashBytes(h: Hash): (d: seq<Byte>)
    ensures |d| == 20
  {
    BytesOf(h.a) + BytesOf(h.b) + BytesOf(h.c) + BytesOf(h.d) + BytesOf(h.e)
  }

  function DigestOfPadded(padded: seq<Byte>): seq<Byte>
    requires |padded| % BLOCK_BYTES == 0
  {
    HashBytes(HashBlocks(padded, |padded| / BLOCK_BYTES))
  }

  /** The SHA-1 digest of a message. */
  function Digest(message: seq<Byte>): seq<Byte> {
    DigestOfPadded(Pad(message))
  }
}
