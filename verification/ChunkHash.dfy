/** HMAC and PBKDF2 with SHA-256 as the RFCs define them. */
module Pbkdf2Spec {
  import opened Common
  import opened Sha256Digest

  function Xor(x: seq<byte>, y: seq<byte>): (z: seq<byte>)
    requires |x| == |y|
    ensures |z| == |x|
  {
    seq(|x|, i requires 0 <= i < |x| => x[i] ^ y[i])
  }

  function Repeat(b: byte, n: nat): (s: seq<byte>)
    ensures |s| == n
  {
    seq(n, _ => b)
  }

  /** RFC 2104, section 2, steps (1) and the note on long keys: the key brought to the block length. */
  function BlockKey(key: seq<byte>): (k: seq<byte>)
    ensures |k| == 64
  {
    var short := if |key| > 64 then Digest(key) else key;
    short + Repeat(0, 64 - |short|)
  }

  /** RFC 2104, section 2: H(K XOR opad, H(K XOR ipad, text)). */
  function Hmac(key: seq<byte>, text: seq<byte>): (mac: seq<byte>)
    ensures |mac| == 32
  {
    var k := BlockKey(key);
    Digest(Xor(k, Repeat(0x5C, 64)) + Digest(Xor(k, Repeat(0x36, 64)) + text))
  }

  /** RFC 8018, section 5.2: U_c of the first output block, whose index is the four bytes 0, 0, 0, 1. */
  function U(password: seq<byte>, salt: seq<byte>, c: nat): (u: seq<byte>)
    requires c >= 1
    ensures |u| == 32
  {
    Hmac(password, if c == 1 then salt + [0, 0, 0, 1] else U(password, salt, c - 1))
  }

  /** RFC 8018, section 5.2: U_1 XOR U_2 XOR ... XOR U_c. */
  function FirstBlock(password: seq<byte>, salt: seq<byte>, c: nat): (t: seq<byte>)
    requires c >= 1
    ensures |t| == 32
  {
    if c == 1 then U(password, salt, 1) else Xor(FirstBlock(password, salt, c - 1), U(password, salt, c))
  }

  // The same, byte by byte.

  function XorOf(bytes: seq<byte>): byte {
    if bytes == [] then 0 else XorOf(bytes[..|bytes| - 1]) ^ bytes[|bytes| - 1]
  }

  lemma NextBytes(password: seq<byte>, salt: seq<byte>, c: nat, i: nat)
    requires c >= 1 && i < 32
    ensures FirstBlock(password, salt, 1) == U(password, salt, 1)
    ensures FirstBlock(password, salt, c + 1)[i] == FirstBlock(password, salt, c)[i] ^ U(password, salt, c + 1)[i]
  {
    hide U;
  }

  /** A byte of the block is the exclusive or of that byte of all iterations. */
  lemma {:induction false} FirstBlockBytes(password: seq<byte>, salt: seq<byte>, c: nat, i: nat)
    requires c >= 1 && i < 32
    ensures FirstBlock(password, salt, c)[i] == XorOf(seq(c, j requires 0 <= j < c => U(password, salt, j + 1)[i]))
  {
    hide U;
    var bytes := seq(c, j requires 0 <= j < c => U(password, salt, j + 1)[i]);
    if c == 1 {
      assert bytes[..0] == [] && XorOf([]) == 0;
    } else {
      FirstBlockBytes(password, salt, c - 1, i);
      NextBytes(password, salt, c - 1, i);
      assert bytes[..c - 1] == seq(c - 1, j requires 0 <= j < c - 1 => U(password, salt, j + 1)[i]);
    }
  }

  /** The pads of a key that is not longer than a block. */
  lemma HmacBytes(key: seq<byte>, text: seq<byte>, ipad: seq<byte>, opad: seq<byte>)
    requires |key| <= |ipad| == |opad| == 64
    requires forall i :: 0 <= i < 64 ==> ipad[i] == (if i < |key| then key[i] else 0) ^ 0x36
    requires forall i :: 0 <= i < 64 ==> opad[i] == (if i < |key| then key[i] else 0) ^ 0x5C
    ensures Hmac(key, text) == Digest(opad + Digest(ipad + text))
  {
    hide Digest;
    var k := BlockKey(key);
    assert Xor(k, Repeat(0x36, 64)) == ipad;
    assert Xor(k, Repeat(0x5C, 64)) == opad;
  }

  /** PBKDF2 with HMAC-SHA-256, for a derived key that fits in the first output block. */
  function Pbkdf2(password: seq<byte>, salt: seq<byte>, c: nat, dkLen: nat): (dk: seq<byte>)
    requires c >= 1 && dkLen <= 32
    ensures |dk| == dkLen
  {
    FirstBlock(password, salt, c)[..dkLen]
  }

  /** The derived key, byte by byte, and the iterations that it is made of. */
  lemma Pbkdf2Bytes(password: seq<byte>, salt: seq<byte>, c: nat, dkLen: nat, i: nat)
    requires c >= 1 && i < dkLen <= 32
    ensures Pbkdf2(password, salt, c, dkLen)[i] == XorOf(seq(c, j requires 0 <= j < c => U(password, salt, j + 1)[i]))
    ensures U(password, salt, 1) == Hmac(password, salt + [0, 0, 0, 1])
    ensures U(password, salt, c + 1) == Hmac(password, U(password, salt, c))
  {
    hide Hmac, FirstBlock, XorOf;
    FirstBlockBytes(password, salt, c, i);
  }
}

/** The chunk checksums of rman.c. */
module ChunkHash {
  import opened Common
  import opened Sha256Digest
  import opened Sha256
  import opened Pbkdf2Spec

  /** C's conversion of an unsigned 64-bit length to the int parameter of `sha256_update`. */
  function ToInt(n: uint64): int32 {
    var m := n % TWO_TO_THE_32;
    if m < TWO_TO_THE_31 then m else m - TWO_TO_THE_32
  }

  /** The bytes that are really hashed when the whole of the data is meant to be. */
  function Hashed(data: seq<byte>): seq<byte>
    requires |data| < TWO_TO_THE_64
  {
    ToIntFits(|data|);
    FirstBytes(data, ToInt(|data|))
  }

  lemma ToIntFits(n: uint64)
    ensures ToInt(n) <= n
  {
  }

  /** The narrowing of the length is harmless exactly below 2^31 bytes. Above, the low 32 bits count if they are
      positive as an int, and otherwise nothing is hashed. */
  lemma HashesEverything(data: seq<byte>)
    requires |data| < TWO_TO_THE_64
    ensures Hashed(data) == data <==> |data| < 0x8000_0000
    ensures var n := |data| % 0x1_0000_0000; Hashed(data) == if n < 0x8000_0000 then data[..n] else []
  {
    if |data| >= TWO_TO_THE_31 {
      assert |Hashed(data)| < TWO_TO_THE_31;
    }
  }

  /** `to_(uint64_t, bytes)` on a little-endian machine. */
  function LoadLe64(b: seq<byte>): uint64
    requires |b| >= 8
  {
    b[0] as int + 0x100 * (b[1] as int) + 0x1_0000 * (b[2] as int) + 0x100_0000 * (b[3] as int) +
    0x1_0000_0000 * (b[4] as int) + 0x100_0000_0000 * (b[5] as int) +
    0x1_0000_0000_0000 * (b[6] as int) + 0x100_0000_0000_0000 * (b[7] as int)
  }

  function Power256(k: nat): (p: nat)
    ensures p > 0
  {
    if k == 0 then 1 else 256 * Power256(k - 1)
  }

  /** The number with these digits, least significant digit first. */
  function ValueOf(digits: seq<nat>): nat {
    if digits == [] then 0 else digits[0] + 256 * ValueOf(digits[1..])
  }

  /** Byte k of the memory is digit k of the number. */
  lemma LoadsDigits(b: seq<byte>, k: nat)
    requires |b| >= 8 && k < 8
    ensures LoadLe64(b) / Power256(k) % 256 == b[k] as int
  {
    var d := seq(8, i requires 0 <= i < 8 => b[i] as nat);
    LoadsValue(b, d);
    DigitOf(d, k);
  }

  lemma LoadsValue(b: seq<byte>, d: seq<nat>)
    requires |b| >= 8 && |d| == 8 && forall i :: 0 <= i < 8 ==> d[i] == b[i] as nat
    ensures LoadLe64(b) == ValueOf(d)
  {
    EightDigits(d[0], d[1], d[2], d[3], d[4], d[5], d[6], d[7]);
    assert d == [d[0], d[1], d[2], d[3], d[4], d[5], d[6], d[7]];
  }

  lemma EightDigits(a: nat, b: nat, c: nat, d: nat, e: nat, f: nat, g: nat, h: nat)
    ensures ValueOf([a, b, c, d, e, f, g, h])
         == a + 0x100 * b + 0x1_0000 * c + 0x100_0000 * d + 0x1_0000_0000 * e + 0x100_0000_0000 * f +
            0x1_0000_0000_0000 * g + 0x100_0000_0000_0000 * h
  {
    FourMoreDigits(a, b, c, d, [e, f, g, h]);
    FourMoreDigits(e, f, g, h, []);
    assert [a, b, c, d] + [e, f, g, h] == [a, b, c, d, e, f, g, h] && [e, f, g, h] + [] == [e, f, g, h];
  }

  lemma FourMoreDigits(a: nat, b: nat, c: nat, d: nat, rest: seq<nat>)
    ensures ValueOf([a, b, c, d] + rest)
         == a + 0x100 * b + 0x1_0000 * c + 0x100_0000 * d + 0x1_0000_0000 * ValueOf(rest)
  {
    assert ([a, b, c, d] + rest)[1..] == [b, c, d] + rest && ([b, c, d] + rest)[1..] == [c, d] + rest;
    assert ([c, d] + rest)[1..] == [d] + rest && ([d] + rest)[1..] == rest;
    assert ValueOf([c, d] + rest) == c + 256 * (d + 256 * ValueOf(rest));
    assert ValueOf([a, b, c, d] + rest) == a + 256 * (b + 256 * ValueOf([c, d] + rest));
  }

  lemma {:induction false} DigitOf(digits: seq<nat>, k: nat)
    requires k < |digits| && forall i :: 0 <= i < |digits| ==> digits[i] < 256
    ensures ValueOf(digits) / Power256(k) % 256 == digits[k]
  {
    var rest := ValueOf(digits[1..]);
    if k == 0 {
      Divided(ValueOf(digits), 256, rest, digits[0]);
    } else {
      DigitOf(digits[1..], k - 1);
      DropDigit(digits[0], rest, k - 1);
    }
  }

  lemma DropDigit(digit: nat, rest: nat, k: nat)
    requires digit < 256
    ensures (digit + 256 * rest) / Power256(k + 1) == rest / Power256(k)
  {
    var p := Power256(k);
    Divided(digit + 256 * rest, 256 * p, rest / p, 256 * (rest % p) + digit);
  }

  /** Numbers with the same digits are the same. */
  lemma {:induction false} SameDigits(m: nat, n: nat, e: nat)
    requires m < Power256(e) && n < Power256(e)
    requires forall k :: 0 <= k < e ==> m / Power256(k) % 256 == n / Power256(k) % 256
    ensures m == n
  {
    if e > 0 {
      forall k | 0 <= k < e - 1 ensures m / 256 / Power256(k) % 256 == n / 256 / Power256(k) % 256 {
        DropDigit(m % 256, m / 256, k);
        DropDigit(n % 256, n / 256, k);
        assert m / Power256(k + 1) % 256 == n / Power256(k + 1) % 256;
      }
      SameDigits(m / 256, n / 256, e - 1);
      assert m / Power256(0) % 256 == n / Power256(0) % 256;
    }
  }

  /** So a number has the bytes as its digits exactly if it is loaded from them. */
  lemma LoadedExactly(b: seq<byte>, n: uint64)
    requires |b| >= 8
    ensures n == LoadLe64(b) <==> forall k :: 0 <= k < 8 ==> n / Power256(k) % 256 == b[k] as int
  {
    hide LoadLe64;
    forall k | 0 <= k < 8 ensures LoadLe64(b) / Power256(k) % 256 == b[k] as int {
      LoadsDigits(b, k);
    }
    if forall k :: 0 <= k < 8 ==> n / Power256(k) % 256 == b[k] as int {
      assert Power256(8) == TWO_TO_THE_64;
      SameDigits(n, LoadLe64(b), 8);
    }
  }

  /** `hash_sha256`: the number whose digits, the least significant first, are the first eight bytes of the digest. */
  method HashSha256(data: seq<byte>) returns (h: uint64)
    requires |data| < TWO_TO_THE_64
    ensures h == LoadLe64(Digest(Hashed(data)))
    ensures forall k :: 0 <= k < 8 ==> h / Power256(k) % 256 == Digest(Hashed(data))[k] as int
  {
    hide Digest;
    LoadedExactly(Digest(Hashed(data)), LoadLe64(Digest(Hashed(data))));
    var shaBuffer := new byte[32];
    ToIntFits(|data|);
    Sha256Of(data, ToInt(|data|), shaBuffer);
    h := LoadLe64(shaBuffer[..]);
    assert shaBuffer[..32] == shaBuffer[..];
  }

  /** One hash of a pad and a text. */
  method HashBehindPad(sha: Sha256Context, pad: array<byte>, text: seq<byte>, buffer: array<byte>)
    requires pad.Length == 64 && buffer.Length == 32 && |text| < 64
    requires sha.buffer.Length == 64 && sha.buffer !in {pad, buffer} && buffer != pad
    modifies sha, sha.buffer, buffer
    ensures buffer[..] == Digest(pad[..] + text)
  {
    hide Digest, Counts, IsState;
    sha.Begin();
    sha.Update(pad[..], 64);
    FirstBytesAll(pad[..], 64);
    sha.Update(text, |text|);
    FirstBytesAll(text, |text|);
    assert [] + pad[..] + text == pad[..] + text;
    sha.End(buffer);
    assert buffer[..32] == buffer[..];
  }

  /** Two passes over the context: the inner hash of the text, then the outer hash of the result. */
  method HmacPass(sha: Sha256Context, ipad: array<byte>, opad: array<byte>, text: seq<byte>, buffer: array<byte>)
    requires ipad.Length == opad.Length == 64 && buffer.Length == 32 && |text| < 64
    requires sha.buffer.Length == 64 && sha.buffer !in {ipad, opad, buffer} && buffer !in {ipad, opad}
    modifies sha, sha.buffer, buffer
    ensures buffer[..] == Digest(opad[..] + Digest(ipad[..] + text))
  {
    hide Digest;
    HashBehindPad(sha, ipad, text, buffer);
    HashBehindPad(sha, opad, buffer[..], buffer);
  }

  lemma FirstBytesAll(s: seq<byte>, n: int32)
    requires n == |s|
    ensures FirstBytes(s, n) == s
  {
  }

  /** The two pads, made by copying the key and flipping every byte. */
  method MakePads(key: array<byte>, ipad: array<byte>, opad: array<byte>)
    requires key.Length == ipad.Length == opad.Length == 64 && ipad != opad && key !in {ipad, opad}
    modifies ipad, opad
    ensures ipad[..] == Xor(key[..], Repeat(0x36, 64)) && opad[..] == Xor(key[..], Repeat(0x5C, 64))
    ensures forall i :: 0 <= i < 64 ==> ipad[i] == key[i] ^ 0x36 && opad[i] == key[i] ^ 0x5C
  {
    forall i | 0 <= i < 64 { ipad[i] := key[i]; }
    forall i | 0 <= i < 64 { opad[i] := key[i]; }
    assert ipad[..] == opad[..] == key[..];
    FlipPads(ipad, opad);
  }

  method FlipPads(ipad: array<byte>, opad: array<byte>)
    requires ipad.Length == opad.Length == 64 && ipad != opad
    modifies ipad, opad
    ensures ipad[..] == Xor(old(ipad[..]), Repeat(0x36, 64)) && opad[..] == Xor(old(opad[..]), Repeat(0x5C, 64))
  {
    for i := 0 to 64
      invariant forall k :: 0 <= k < i ==> ipad[k] == old(ipad[k]) ^ 0x36
      invariant forall k :: 0 <= k < i ==> opad[k] == old(opad[k]) ^ 0x5C
      invariant forall k :: i <= k < 64 ==> ipad[k] == old(ipad[k]) && opad[k] == old(opad[k])
    {
      ipad[i] := ipad[i] ^ 0x36;
      opad[i] := opad[i] ^ 0x5C;
    }
  }

  /** The key of the HMAC: the hash of the data, filled up with zeros. */
  method HashKey(data: seq<byte>) returns (sha: Sha256Context, key: array<byte>)
    requires |data| < TWO_TO_THE_64
    ensures fresh(sha) && fresh(sha.buffer) && fresh(key) && sha.buffer.Length == 64 && key != sha.buffer
    ensures key.Length == 64 && key[..] == BlockKey(Digest(Hashed(data)))
  {
    hide Digest, BlockKey;
    sha := new Sha256Context();
    key := new byte[64](_ => 0);
    ToIntFits(|data|);
    sha.Update(data, ToInt(|data|));
    assert [] + Hashed(data) == Hashed(data);
    sha.End(key);
    KeyIsBlockKey(Digest(Hashed(data)), key[..]);
  }

  /** `hash_hkdf`: despite the name, PBKDF2 with an empty salt and 32 iterations. */
  method HashHkdf(data: seq<byte>) returns (h: uint64)
    requires |data| < TWO_TO_THE_64
    ensures h == LoadLe64(Pbkdf2(Digest(Hashed(data)), [], 32, 8))
    ensures forall k :: 0 <= k < 8 ==> h / Power256(k) % 256 == Pbkdf2(Digest(Hashed(data)), [], 32, 8)[k] as int
  {
    hide Digest, U, FirstBlock, Hmac, BlockKey;
    LoadedExactly(Pbkdf2(Digest(Hashed(data)), [], 32, 8), LoadLe64(Pbkdf2(Digest(Hashed(data)), [], 32, 8)));
    var sha, key := HashKey(data);
    ghost var password := Digest(Hashed(data));
    hide Hashed;
    var ipad, opad := new byte[64], new byte[64];
    MakePads(key, ipad, opad);
    var buffer := new byte[32];
    HmacPass(sha, ipad, opad, [0, 0, 0, 1], buffer);
    HmacFromPads(password, ipad[..], opad[..], [0, 0, 0, 1]);
    FirstIteration(password);
    var result := Iterate(sha, ipad, opad, buffer, password);
    h := LoadLe64(result);
  }

  /** The loop of `hash_hkdf`: 31 further iterations, keeping only eight bytes of the running XOR. */
  method Iterate(sha: Sha256Context, ipad: array<byte>, opad: array<byte>, buffer: array<byte>,
                 ghost password: seq<byte>)
    returns (result: seq<byte>)
    requires ipad.Length == opad.Length == 64 && buffer.Length == 32
    requires sha.buffer.Length == 64 && sha.buffer !in {ipad, opad, buffer} && buffer !in {ipad, opad}
    requires ipad[..] == Xor(BlockKey(password), Repeat(0x36, 64))
    requires opad[..] == Xor(BlockKey(password), Repeat(0x5C, 64))
    requires buffer[..] == U(password, [], 1) == FirstBlock(password, [], 1)
    modifies sha, sha.buffer, buffer
    ensures result == FirstBlock(password, [], 32)[..8]
    ensures forall k :: 0 <= k < 8 ==>
              result[k] == XorOf(seq(32, j requires 0 <= j < 32 => U(password, [], j + 1)[k]))
  {
    hide XorOf, Digest, U, FirstBlock, Hmac, BlockKey;
    result := buffer[..8];
    var i := 0;
    while i < 31
      invariant 0 <= i <= 31
      invariant buffer[..] == U(password, [], i + 1)
      invariant result == FirstBlock(password, [], i + 1)[..8]
      invariant ipad[..] == Xor(BlockKey(password), Repeat(0x36, 64))
      invariant opad[..] == Xor(BlockKey(password), Repeat(0x5C, 64))
    {
      HmacFromPads(password, ipad[..], opad[..], buffer[..]);
      HmacPass(sha, ipad, opad, buffer[..], buffer);
      NextIteration(password, i + 2);
      result := Xor(result, buffer[..8]);
      i := i + 1;
    }
    KeptBytes(password, result);
  }

  lemma KeptBytes(password: seq<byte>, result: seq<byte>)
    requires result == FirstBlock(password, [], 32)[..8]
    ensures forall k :: 0 <= k < 8 ==>
              result[k] == XorOf(seq(32, j requires 0 <= j < 32 => U(password, [], j + 1)[k]))
  {
    hide U, FirstBlock, XorOf;
    forall k | 0 <= k < 8
      ensures result[k] == XorOf(seq(32, j requires 0 <= j < 32 => U(password, [], j + 1)[k]))
    {
      FirstBlockBytes(password, [], 32, k);
    }
  }

  lemma KeyIsBlockKey(password: seq<byte>, key: seq<byte>)
    requires |password| == 32 && |key| == 64 && key[..32] == password && key[32..] == Repeat(0, 32)
    ensures key == BlockKey(password)
  {
    assert key == key[..32] + key[32..];
  }

  lemma HmacFromPads(password: seq<byte>, ipad: seq<byte>, opad: seq<byte>, text: seq<byte>)
    requires ipad == Xor(BlockKey(password), Repeat(0x36, 64))
    requires opad == Xor(BlockKey(password), Repeat(0x5C, 64))
    ensures Digest(opad + Digest(ipad + text)) == Hmac(password, text)
  {
    hide Digest, Xor, BlockKey;
  }

  lemma FirstIteration(password: seq<byte>)
    ensures U(password, [], 1) == FirstBlock(password, [], 1) == Hmac(password, [0, 0, 0, 1])
  {
    hide Hmac;
    var one: seq<byte> := [0, 0, 0, 1];
    assert [] + one == one;
  }

  /** XORing only the eight bytes that are kept gives the same eight bytes as XORing all 32. */
  lemma NextIteration(password: seq<byte>, c: nat)
    requires c >= 2
    ensures U(password, [], c) == Hmac(password, U(password, [], c - 1))
    ensures FirstBlock(password, [], c)[..8] == Xor(FirstBlock(password, [], c - 1)[..8], U(password, [], c)[..8])
  {
    hide Hmac;
  }

  /** What a chunk identifier has to equal; None where the code knows no hash. */
  function ExpectedId(data: seq<byte>, hashType: HashType, blake3: seq<byte> -> uint64): Option<uint64>
    requires |data| < TWO_TO_THE_64
  {
    match hashType
    case SHA512 => None
    case SHA256 => Some(LoadLe64(Digest(Hashed(data))))
    case HKDF => Some(LoadLe64(Pbkdf2(Digest(Hashed(data)), [], 32, 8)))
    case BLAKE3 => Some(blake3(data))
    case UnknownHash(_) => None
  }

  lemma ExpectedExactly(data: seq<byte>, id: uint64)
    requires |data| < TWO_TO_THE_64
    ensures id == LoadLe64(Digest(Hashed(data))) <==>
            forall k :: 0 <= k < 8 ==> id / Power256(k) % 256 == Digest(Hashed(data))[k] as int
    ensures id == LoadLe64(Pbkdf2(Digest(Hashed(data)), [], 32, 8)) <==>
            forall k :: 0 <= k < 8 ==> id / Power256(k) % 256 == Pbkdf2(Digest(Hashed(data)), [], 32, 8)[k] as int
  {
    hide Digest, Pbkdf2, LoadLe64, Hashed;
    LoadedExactly(Digest(Hashed(data)), id);
    LoadedExactly(Pbkdf2(Digest(Hashed(data)), [], 32, 8), id);
  }

  /** `chunk_valid`, for any BLAKE3 implementation: which hash is compared with the id, and that all of it is. */
  method ChunkValid(data: seq<byte>, chunkId: uint64, hashType: HashType,
                    blake3: seq<byte> -> uint64) returns (valid: bool)
    requires |data| < TWO_TO_THE_64
    ensures valid <==> ExpectedId(data, hashType, blake3) == Some(chunkId)
    ensures hashType == SHA256 ==>
              (valid <==> forall k :: 0 <= k < 8 ==> chunkId / Power256(k) % 256 == Digest(Hashed(data))[k] as int)
    ensures hashType == HKDF ==>
              (valid <==> forall k :: 0 <= k < 8 ==>
                            chunkId / Power256(k) % 256 == Pbkdf2(Digest(Hashed(data)), [], 32, 8)[k] as int)
    ensures hashType == BLAKE3 ==> (valid <==> chunkId == blake3(data))
    ensures hashType !in {SHA256, HKDF, BLAKE3} ==> !valid
  {
    hide Digest, Pbkdf2, LoadLe64, Power256;
    ExpectedExactly(data, chunkId);
    match hashType {
      case SHA512 => return false;
      case SHA256 =>
        var h := HashSha256(data);
        return h == chunkId;
      case HKDF =>
        var h := HashHkdf(data);
        return h == chunkId;
      case BLAKE3 => return blake3(data) == chunkId;
      case UnknownHash(_) => return false;
    }
  }
}
