/** SHA-256 as FIPS 180-2 defines it: the reference that the streaming code is proved against. */
module Sha256Spec {
  import opened Common

  type Word = bv32

  /** Section 2.2.2: addition modulo 2^32, which is what bv32 addition does. */
  function Add(x: Word, y: Word): Word {
    x + y
  }

  /** The eight working variables of section 6.2.2, and also a hash value H. */
  datatype Regs = Regs(a: Word, b: Word, c: Word, d: Word, e: Word, f: Word, g: Word, h: Word)

  // Section 4.1.2: the six logical functions.

  function Ch(x: Word, y: Word, z: Word): Word {
    (x & y) ^ (!x & z)
  }

  function Maj(x: Word, y: Word, z: Word): Word {
    (x & y) ^ (x & z) ^ (y & z)
  }

  function BigSigma0(x: Word): Word {
    x.RotateRight(2) ^ x.RotateRight(13) ^ x.RotateRight(22)
  }

  function BigSigma1(x: Word): Word {
    x.RotateRight(6) ^ x.RotateRight(11) ^ x.RotateRight(25)
  }

  function SmallSigma0(x: Word): Word {
    x.RotateRight(7) ^ x.RotateRight(18) ^ (x >> 3)
  }

  function SmallSigma1(x: Word): Word {
    x.RotateRight(17) ^ x.RotateRight(19) ^ (x >> 10)
  }

  // Section 4.2.2: the round constants.

  function K(t: nat): Word
    requires t < 64
  {
    KRow(t / 8)[t % 8]
  }

  function KRow(row: nat): (ks: seq<Word>)
    requires row < 8
    ensures |ks| == 8
  {
    match row
    case 0 => [0x428A2F98, 0x71374491, 0xB5C0FBCF, 0xE9B5DBA5,
              0x3956C25B, 0x59F111F1, 0x923F82A4, 0xAB1C5ED5]
    case 1 => [0xD807AA98, 0x12835B01, 0x243185BE, 0x550C7DC3,
              0x72BE5D74, 0x80DEB1FE, 0x9BDC06A7, 0xC19BF174]
    case 2 => [0xE49B69C1, 0xEFBE4786, 0x0FC19DC6, 0x240CA1CC,
              0x2DE92C6F, 0x4A7484AA, 0x5CB0A9DC, 0x76F988DA]
    case 3 => [0x983E5152, 0xA831C66D, 0xB00327C8, 0xBF597FC7,
              0xC6E00BF3, 0xD5A79147, 0x06CA6351, 0x14292967]
    case 4 => [0x27B70A85, 0x2E1B2138, 0x4D2C6DFC, 0x53380D13,
              0x650A7354, 0x766A0ABB, 0x81C2C92E, 0x92722C85]
    case 5 => [0xA2BFE8A1, 0xA81A664B, 0xC24B8B70, 0xC76C51A3,
              0xD192E819, 0xD6990624, 0xF40E3585, 0x106AA070]
    case 6 => [0x19A4C116, 0x1E376C08, 0x2748774C, 0x34B0BCB5,
              0x391C0CB3, 0x4ED8AA4A, 0x5B9CCA4F, 0x682E6FF3]
    case _ => [0x748F82EE, 0x78A5636F, 0x84C87814, 0x8CC70208,
              0x90BEFFFA, 0xA4506CEB, 0xBEF9A3F7, 0xC67178F2]
  }

  /** Section 5.3.2: the initial hash value. */
  const H0: Regs := Regs(0x6A09E667, 0xBB67AE85, 0x3C6EF372, 0xA54FF53A,
                         0x510E527F, 0x9B05688C, 0x1F83D9AB, 0x5BE0CD19)

  /** Section 3.1: four bytes, most significant first, make a word. */
  function WordAt(m: seq<byte>, i: nat): Word
    requires i + 4 <= |m|
  {
    ((m[i] as Word) << 24) | ((m[i + 1] as Word) << 16) | ((m[i + 2] as Word) << 8) | (m[i + 3] as Word)
  }

  function BytesOf(w: Word): (bytes: seq<byte>)
    ensures |bytes| == 4
  {
    [(w >> 24) as byte, ((w >> 16) & 0xFF) as byte, ((w >> 8) & 0xFF) as byte, (w & 0xFF) as byte]
  }

  type Block = s: seq<byte> | |s| == 64 witness seq(64, _ => 0)

  function NextWord(w2: Word, w7: Word, w15: Word, w16: Word): Word {
    Add(Add(Add(SmallSigma1(w2), w7), SmallSigma0(w15)), w16)
  }

  /** Step 1 of section 6.2.2: word t of the message schedule. */
  function Schedule(m: Block, t: nat): Word
    requires t < 64
  {
    if t < 16 then WordAt(m, 4 * t)
    else NextWord(Schedule(m, t - 2), Schedule(m, t - 7), Schedule(m, t - 15), Schedule(m, t - 16))
  }

  function T1(e: Word, f: Word, g: Word, h: Word, k: Word, w: Word): Word {
    Add(Add(Add(Add(h, BigSigma1(e)), Ch(e, f, g)), k), w)
  }

  function T2(a: Word, b: Word, c: Word): Word {
    Add(BigSigma0(a), Maj(a, b, c))
  }

  /** One turn of the loop in step 3 of section 6.2.2. */
  function Round(r: Regs, k: Word, w: Word): Regs {
    var t1 := T1(r.e, r.f, r.g, r.h, k, w);
    Regs(Add(t1, T2(r.a, r.b, r.c)), r.a, r.b, r.c, Add(r.d, t1), r.e, r.f, r.g)
  }

  function Rounds(r: Regs, m: Block, t: nat): Regs
    requires t <= 64
  {
    if t == 0 then r else Round(Rounds(r, m, t - 1), K(t - 1), Schedule(m, t - 1))
  }

  /** Step 4 of section 6.2.2. */
  function AddRegs(x: Regs, y: Regs): Regs {
    Regs(Add(x.a, y.a), Add(x.b, y.b), Add(x.c, y.c), Add(x.d, y.d),
         Add(x.e, y.e), Add(x.f, y.f), Add(x.g, y.g), Add(x.h, y.h))
  }

  function Compress(h: Regs, m: Block): Regs {
    AddRegs(h, Rounds(h, m, 64))
  }
}

/** Message padding and the digest, FIPS 180-2 sections 5.1.1 and 6.2.2. */
module Sha256Digest {
  import opened Common
  import opened Sha256Spec

  /** Section 6.2.2: H after the first n blocks of the data. */
  function FoldBlocks(h: Regs, data: seq<byte>, n: nat): Regs
    requires 64 * n <= |data|
    decreases n
  {
    if n == 0 then h
    else Compress(FoldBlocks(h, data, n - 1), data[64 * (n - 1)..64 * n])
  }

  /** Later bytes do not matter to the blocks already hashed. */
  lemma {:induction false} FoldPrefix(h: Regs, data: seq<byte>, more: seq<byte>, n: nat)
    requires 64 * n <= |data|
    ensures FoldBlocks(h, data + more, n) == FoldBlocks(h, data, n)
  {
    hide Compress;
    if n > 0 {
      FoldPrefix(h, data, more, n - 1);
      assert (data + more)[64 * (n - 1)..64 * n] == data[64 * (n - 1)..64 * n];
    }
  }

  /** Section 5.1.1: the smallest number of zero bytes that leaves eight bytes free in the last block. */
  function PadZeros(len: nat): (k: nat)
    ensures k < 64 && (len + 1 + k) % 64 == 56
  {
    (55 - len) % 64
  }

  function Be32(n: nat): (bytes: seq<byte>)
    ensures |bytes| == 4
  {
    [((n / 0x100_0000) % 256) as byte, ((n / 0x1_0000) % 256) as byte,
     ((n / 0x100) % 256) as byte, (n % 256) as byte]
  }

  /** The 64-bit big-endian representation of n modulo 2^64. */
  function Be64(n: nat): (bytes: seq<byte>)
    ensures |bytes| == 8
  {
    Be32((n / TWO_TO_THE_32) % TWO_TO_THE_32) + Be32(n % TWO_TO_THE_32)
  }

  /** What is appended to a message of len bytes: a one bit, zero bits, and its length in bits. */
  function Padding(len: nat): (padding: seq<byte>)
    ensures |padding| == 1 + PadZeros(len) + 8
  {
    [0x80] + seq(PadZeros(len), _ => 0) + Be64(8 * len)
  }

  function Pad(msg: seq<byte>): seq<byte> {
    msg + Padding(|msg|)
  }

  /** The padded message is a whole number of blocks. */
  lemma PadIsWhole(msg: seq<byte>)
    ensures |Pad(msg)| % 64 == 0
  {
    hide Padding;
  }

  function RegsBytes(r: Regs): (bytes: seq<byte>)
    ensures |bytes| == 32
  {
    BytesOf(r.a) + BytesOf(r.b) + BytesOf(r.c) + BytesOf(r.d) +
    BytesOf(r.e) + BytesOf(r.f) + BytesOf(r.g) + BytesOf(r.h)
  }

  function Digest(msg: seq<byte>): (bytes: seq<byte>)
    ensures |bytes| == 32
  {
    RegsBytes(FoldBlocks(H0, Pad(msg), |Pad(msg)| / 64))
  }
}
