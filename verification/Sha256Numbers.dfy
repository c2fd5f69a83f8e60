/** What the words, sums and bytes of `Sha256Spec` are as numbers. */
module Sha256Numbers {
  import opened Common
  import opened Sha256Spec
  import opened Sha256Digest

  // Bits and numbers are kept apart: behind these names, the verifier has to think of only one of them at a time.

  function Num4(x: bv4): nat { x as nat }

  function Num8(x: bv8): nat { x as nat }

  function Number(x: bv32): (n: nat)
    ensures n < 0x1_0000_0000
  {
    x as nat
  }

  /** Four bytes as a number, most significant byte first. */
  function BigEndian(a: byte, b: byte, c: byte, d: byte): nat {
    ((Num8(a) * 256 + Num8(b)) * 256 + Num8(c)) * 256 + Num8(d)
  }

  function JoinBytes(a: bv8, b: bv8, c: bv8, d: bv8): bv32 {
    ((a as bv32) << 24) | ((b as bv32) << 16) | ((c as bv32) << 8) | (d as bv32)
  }

  lemma JoinIsBigEndian(a: byte, b: byte, c: byte, d: byte)
    ensures Number(JoinBytes(a, b, c, d)) == BigEndian(a, b, c, d)
  {
  }

  lemma JoinBytesOf(w: bv32)
    ensures JoinBytes(BytesOf(w)[0], BytesOf(w)[1], BytesOf(w)[2], BytesOf(w)[3]) == w
  {
    FourBytes(w);
  }

  lemma FourBytes(w: bv32)
    ensures w == (((w >> 24) as bv8 as bv32) << 24) | ((((w >> 16) & 0xFF) as bv8 as bv32) << 16)
               | ((((w >> 8) & 0xFF) as bv8 as bv32) << 8) | ((w & 0xFF) as bv8 as bv32)
  {
  }

  // Section 3.1: words and their bytes.

  lemma WordIsBigEndian(m: seq<byte>, i: nat)
    requires i + 4 <= |m|
    ensures WordAt(m, i) as int
         == ((m[i] as int * 256 + m[i + 1] as int) * 256 + m[i + 2] as int) * 256 + m[i + 3] as int
  {
    JoinIsBigEndian(m[i], m[i + 1], m[i + 2], m[i + 3]);
  }

  lemma BytesAreBigEndian(w: Word)
    ensures var b := BytesOf(w);
            w as int == ((b[0] as int * 256 + b[1] as int) * 256 + b[2] as int) * 256 + b[3] as int
  {
    NumberOfBytes(w);
    hide BytesOf;
  }

  lemma NumberOfBytes(w: Word)
    ensures Number(w) == BigEndian(BytesOf(w)[0], BytesOf(w)[1], BytesOf(w)[2], BytesOf(w)[3])
  {
    hide Number, BigEndian, JoinBytes, BytesOf;
    JoinBytesOf(w);
    JoinIsBigEndian(BytesOf(w)[0], BytesOf(w)[1], BytesOf(w)[2], BytesOf(w)[3]);
  }

  lemma Be32IsBigEndian(n: nat)
    ensures var b := Be32(n);
            ((b[0] as int * 256 + b[1] as int) * 256 + b[2] as int) * 256 + b[3] as int == n % 0x1_0000_0000
  {
    BytesOfNumber(n);
    hide Be32;
  }

  lemma BytesOfNumber(n: nat)
    ensures BigEndian(Be32(n)[0], Be32(n)[1], Be32(n)[2], Be32(n)[3]) == n % 0x1_0000_0000
  {
    hide Num8, BigEndian;
    ByteOfNumber(n / 0x100_0000 % 256);
    ByteOfNumber(n / 0x1_0000 % 256);
    ByteOfNumber(n / 0x100 % 256);
    ByteOfNumber(n % 256);
    FourBytesOf(Be32(n)[0], Be32(n)[1], Be32(n)[2], Be32(n)[3], n);
  }

  lemma FourBytesOf(a: byte, b: byte, c: byte, d: byte, n: nat)
    requires Num8(a) == n / 0x100_0000 % 256 && Num8(b) == n / 0x1_0000 % 256
    requires Num8(c) == n / 0x100 % 256 && Num8(d) == n % 256
    ensures BigEndian(a, b, c, d) == n % 0x1_0000_0000
  {
    hide Num8;
    Base256(n);
  }

  lemma Base256(n: nat)
    ensures ((n / 0x100_0000 % 256 * 256 + n / 0x1_0000 % 256) * 256 + n / 0x100 % 256) * 256 + n % 256
         == n % 0x1_0000_0000
  {
    var q1, q2, q3, q4 := n / 0x100, n / 0x1_0000, n / 0x100_0000, n / 0x1_0000_0000;
    assert q1 / 256 == q2;
    assert q2 / 256 == q3;
    assert q3 / 256 == q4;
    assert n == 256 * q1 + n % 256 && q1 == 256 * q2 + q1 % 256;
    assert q2 == 256 * q3 + q2 % 256 && q3 == 256 * q4 + q3 % 256;
  }

  lemma ByteOfNumber(n: nat)
    requires n < 256
    ensures Num8(n as byte) == n
  {
    hide Num8;
    var x := ByteWith(n);
    ByteBack(x);
  }

  lemma ByteBack(x: bv8)
    ensures Num8(x) < 256 && Num8(x) as bv8 == x
  {
  }

  lemma {:induction false} ByteWith(n: nat) returns (x: bv8)
    requires n < 256
    ensures Num8(x) == n
  {
    hide Num8;
    FirstAndLast();
    x := 0;
    if n > 0 {
      var y := ByteWith(n - 1);
      Increment(y);
      x := y + 1;
    }
  }

  lemma Increment(x: bv8)
    requires x != 255
    ensures Num8(x + 1) == Num8(x) + 1
  {
  }

  lemma FirstAndLast()
    ensures Num8(0) == 0 && Num8(255) == 255
  {
  }

  // Section 2.2.2: addition modulo 2^32.

  lemma AddIsModular(x: Word, y: Word)
    ensures Add(x, y) as int == (x as int + y as int) % 0x1_0000_0000
  {
    SumIsModular(x, y);
    hide Add;
  }

  lemma SumIsModular(x: Word, y: Word)
    ensures Number(Add(x, y)) == (Number(x) + Number(y)) % 0x1_0000_0000
  {
    hide Num8, Number, BytesOf, Plus, Carry, Carry8, Carry16, Carry24, Add;
    var p, q := BytesOf(x), BytesOf(y);
    NumberOfBytes(x);
    NumberOfBytes(y);
    NumberOfBytes(Add(x, y));
    Byte3(x, y);
    Byte2(x, y);
    CarryOfByte2(x, y);
    Byte1(x, y);
    CarryOfByte1(x, y);
    Byte0(x, y);
    AddBytes(p[3], q[3], 0);
    AddBytes(p[2], q[2], Carry8(x, y));
    AddBytes(p[1], q[1], Carry16(x, y));
    AddBytes(p[0], q[0], Carry24(x, y));
    Zero();
    Wrap(Number(Add(x, y)), Number(x) + Number(y), Num8(Carry(p[0], q[0], Carry24(x, y))));
  }

  lemma Wrap(s: nat, t: nat, k: nat)
    requires s < 0x1_0000_0000 && t == 0x1_0000_0000 * k + s
    ensures s == t % 0x1_0000_0000
  {
  }

  lemma Zero()
    ensures Num8(0) == 0
  {
  }

  /** One byte of a sum, and its carry. */
  function Plus(a: bv8, b: bv8, c: bv8): bv8 { a + b + c }

  function Carry(a: bv8, b: bv8, c: bv8): bv8 {
    (((a as bv10) + (b as bv10) + (c as bv10)) >> 8) as bv8
  }

  // What the low bytes of two words carry over to the next one.

  function Carry8(x: Word, y: Word): bv8 { (((x & 0xFF) + (y & 0xFF)) >> 8) as bv8 }

  function Carry16(x: Word, y: Word): bv8 { (((x & 0xFFFF) + (y & 0xFFFF)) >> 16) as bv8 }

  function Carry24(x: Word, y: Word): bv8 { (((x & 0xFF_FFFF) + (y & 0xFF_FFFF)) >> 24) as bv8 }

  lemma Byte3(x: Word, y: Word)
    ensures BytesOf(Add(x, y))[3] == Plus(BytesOf(x)[3], BytesOf(y)[3], 0)
    ensures Carry8(x, y) == Carry(BytesOf(x)[3], BytesOf(y)[3], 0)
  {
  }

  lemma Byte2(x: Word, y: Word)
    ensures BytesOf(Add(x, y))[2] == Plus(BytesOf(x)[2], BytesOf(y)[2], Carry8(x, y))
  {
  }

  lemma CarryOfByte2(x: Word, y: Word)
    ensures Carry16(x, y) == Carry(BytesOf(x)[2], BytesOf(y)[2], Carry8(x, y))
  {
  }

  lemma Byte1(x: Word, y: Word)
    ensures BytesOf(Add(x, y))[1] == Plus(BytesOf(x)[1], BytesOf(y)[1], Carry16(x, y))
  {
  }

  lemma CarryOfByte1(x: Word, y: Word)
    ensures Carry24(x, y) == Carry(BytesOf(x)[1], BytesOf(y)[1], Carry16(x, y))
  {
  }

  lemma Byte0(x: Word, y: Word)
    ensures BytesOf(Add(x, y))[0] == Plus(BytesOf(x)[0], BytesOf(y)[0], Carry24(x, y))
  {
  }

  lemma AddBytes(a: bv8, b: bv8, c: bv8)
    requires c <= 1
    ensures Carry(a, b, c) <= 1
    ensures Num8(a) + Num8(b) + Num8(c) == 256 * Num8(Carry(a, b, c)) + Num8(Plus(a, b, c))
  {
    hide Num4, Num8, High, Low, Plus4, Carry4, Plus, Carry;
    Digits(a);
    Digits(b);
    Digits(c);
    Digits(Plus(a, b, c));
    Digits(Carry(a, b, c));
    TwoDigits(a, b, c);
    AddDigits(Low(a), Low(b), Low(c));
    AddDigits(High(a), High(b), Carry4(Low(a), Low(b), Low(c)));
    Zero();
  }

  // Half a byte at a time.

  function High(a: bv8): bv4 { (a >> 4) as bv4 }

  function Low(a: bv8): bv4 { (a & 0xF) as bv4 }

  function Plus4(a: bv4, b: bv4, c: bv4): bv4 { a + b + c }

  function Carry4(a: bv4, b: bv4, c: bv4): bv4 {
    (((a as bv6) + (b as bv6) + (c as bv6)) >> 4) as bv4
  }

  lemma Digits(a: bv8)
    ensures Num8(a) == 16 * Num4(High(a)) + Num4(Low(a))
    ensures a <= 1 ==> Num4(High(a)) == 0
  {
  }

  lemma AddDigits(a: bv4, b: bv4, c: bv4)
    requires c <= 1
    ensures Num4(a) + Num4(b) + Num4(c) == 16 * Num4(Carry4(a, b, c)) + Num4(Plus4(a, b, c))
  {
  }

  lemma TwoDigits(a: bv8, b: bv8, c: bv8)
    requires c <= 1
    ensures var d := Carry4(Low(a), Low(b), Low(c));
            && Low(c) <= 1 && d <= 1 && Carry(a, b, c) <= 1
            && Low(Plus(a, b, c)) == Plus4(Low(a), Low(b), Low(c))
            && High(Plus(a, b, c)) == Plus4(High(a), High(b), d)
            && Low(Carry(a, b, c)) == Carry4(High(a), High(b), d)
  {
    LowDigit(a, b, c);
    HighDigit(a, b, c);
    ThirdDigit(a, b, c);
    SmallCarries(a, b, c);
    hide *;
  }

  lemma LowDigit(a: bv8, b: bv8, c: bv8)
    ensures Low(Plus(a, b, c)) == Plus4(Low(a), Low(b), Low(c))
  {
  }

  lemma HighDigit(a: bv8, b: bv8, c: bv8)
    requires c <= 1
    ensures High(Plus(a, b, c)) == Plus4(High(a), High(b), Carry4(Low(a), Low(b), Low(c)))
  {
  }

  lemma ThirdDigit(a: bv8, b: bv8, c: bv8)
    requires c <= 1
    ensures Low(Carry(a, b, c)) == Carry4(High(a), High(b), Carry4(Low(a), Low(b), Low(c)))
  {
  }

  lemma SmallCarries(a: bv8, b: bv8, c: bv8)
    requires c <= 1
    ensures Low(c) <= 1 && Carry4(Low(a), Low(b), Low(c)) <= 1 && Carry(a, b, c) <= 1
  {
  }

  // Section 6.2.2: the rounds.

  lemma SumOf(x: Word, y: Word, n: nat, k: nat)
    requires Number(x) == n % 0x1_0000_0000 && Number(y) == k % 0x1_0000_0000
    ensures Number(Add(x, y)) == (n + k) % 0x1_0000_0000
  {
    hide Number;
    SumIsModular(x, y);
    ModSum(n, k);
  }

  lemma ModSum(n: nat, k: nat)
    ensures (n % 0x1_0000_0000 + k % 0x1_0000_0000) % 0x1_0000_0000 == (n + k) % 0x1_0000_0000
  {
  }

  lemma Reduced(x: Word)
    ensures Number(x) == Number(x) % 0x1_0000_0000
  {
    hide Number;
  }

  /** One round, with the sums written out. */
  lemma RoundAddsUp(r: Regs, k: Word, w: Word)
    ensures var n := Round(r, k, w);
            && Number(n.a) == (Number(r.h) + Number(BigSigma1(r.e)) + Number(Ch(r.e, r.f, r.g)) + Number(k) + Number(w)
                               + Number(BigSigma0(r.a)) + Number(Maj(r.a, r.b, r.c))) % 0x1_0000_0000
            && Number(n.e) == (Number(r.d) + Number(r.h) + Number(BigSigma1(r.e)) + Number(Ch(r.e, r.f, r.g))
                               + Number(k) + Number(w)) % 0x1_0000_0000
            && n.b == r.a && n.c == r.b && n.d == r.c && n.f == r.e && n.g == r.f && n.h == r.g
  {
    hide Number, Add, BigSigma0, BigSigma1, Ch, Maj;
    var s1, ch, s0, maj := BigSigma1(r.e), Ch(r.e, r.f, r.g), BigSigma0(r.a), Maj(r.a, r.b, r.c);
    var n := Number(r.h) + Number(s1) + Number(ch) + Number(k) + Number(w);
    SumOfFive(r.h, s1, ch, k, w);
    Reduced(s0);
    Reduced(maj);
    Reduced(r.d);
    SumOf(s0, maj, Number(s0), Number(maj));
    SumOf(T1(r.e, r.f, r.g, r.h, k, w), Add(s0, maj), n, Number(s0) + Number(maj));
    SumOf(r.d, T1(r.e, r.f, r.g, r.h, k, w), Number(r.d), n);
  }

  lemma SumOfFive(a: Word, b: Word, c: Word, d: Word, e: Word)
    ensures Number(Add(Add(Add(Add(a, b), c), d), e))
         == (Number(a) + Number(b) + Number(c) + Number(d) + Number(e)) % 0x1_0000_0000
  {
    hide Number, Add;
    Reduced(e);
    SumOfFour(a, b, c, d);
    SumOf(Add(Add(Add(a, b), c), d), e, Number(a) + Number(b) + Number(c) + Number(d), Number(e));
  }

  lemma SumOfFour(a: Word, b: Word, c: Word, d: Word)
    ensures Number(Add(Add(Add(a, b), c), d)) == (Number(a) + Number(b) + Number(c) + Number(d)) % 0x1_0000_0000
  {
    hide Number, Add;
    Reduced(a);
    Reduced(b);
    Reduced(c);
    Reduced(d);
    SumOf(a, b, Number(a), Number(b));
    SumOf(Add(a, b), c, Number(a) + Number(b), Number(c));
    SumOf(Add(Add(a, b), c), d, Number(a) + Number(b) + Number(c), Number(d));
  }

  /** The message schedule, with the sums written out. */
  lemma ScheduleAddsUp(m: Block, t: nat)
    requires t < 64
    ensures if t < 16 then Schedule(m, t) == WordAt(m, 4 * t)
            else Number(Schedule(m, t)) == (Number(SmallSigma1(Schedule(m, t - 2))) + Number(Schedule(m, t - 7))
                   + Number(SmallSigma0(Schedule(m, t - 15))) + Number(Schedule(m, t - 16))) % 0x1_0000_0000
  {
    hide Number, Add, WordAt, SmallSigma0, SmallSigma1;
    if t >= 16 {
      SumOfFour(SmallSigma1(Schedule(m, t - 2)), Schedule(m, t - 7), SmallSigma0(Schedule(m, t - 15)),
                Schedule(m, t - 16));
    }
  }

  predicate IsSum(z: Word, x: Word, y: Word) {
    Number(z) == (Number(x) + Number(y)) % 0x1_0000_0000
  }

  /** Every register of a compressed state is the sum of the old one and the one after all rounds. */
  lemma CompressAddsUp(h: Regs, m: Block)
    ensures var c, r := Compress(h, m), Rounds(h, m, 64);
            && IsSum(c.a, h.a, r.a) && IsSum(c.b, h.b, r.b) && IsSum(c.c, h.c, r.c) && IsSum(c.d, h.d, r.d)
            && IsSum(c.e, h.e, r.e) && IsSum(c.f, h.f, r.f) && IsSum(c.g, h.g, r.g) && IsSum(c.h, h.h, r.h)
  {
    hide IsSum, Add, Rounds;
    var r := Rounds(h, m, 64);
    AddIsSum(h.a, r.a);
    AddIsSum(h.b, r.b);
    AddIsSum(h.c, r.c);
    AddIsSum(h.d, r.d);
    AddIsSum(h.e, r.e);
    AddIsSum(h.f, r.f);
    AddIsSum(h.g, r.g);
    AddIsSum(h.h, r.h);
  }

  lemma AddIsSum(x: Word, y: Word)
    ensures IsSum(Add(x, y), x, y)
  {
    hide Number, Add;
    SumIsModular(x, y);
  }

  // Section 4.1.2: the logical functions.

  /** Ch takes y where x has a one, and z elsewhere; Maj has a one where two words have one. */
  lemma ChoiceAndMajority(x: Word, y: Word, z: Word)
    ensures Ch(x, y, z) == (x & y) | (!x & z)
    ensures Maj(x, y, z) == (x & y) | (y & z) | (z & x)
  {
  }

  /** The sigmas, with the rotations and shifts of section 3.2 written out. */
  lemma SigmasRotate(x: Word)
    ensures BigSigma0(x) == ((x >> 2) | (x << 30)) ^ ((x >> 13) | (x << 19)) ^ ((x >> 22) | (x << 10))
    ensures BigSigma1(x) == ((x >> 6) | (x << 26)) ^ ((x >> 11) | (x << 21)) ^ ((x >> 25) | (x << 7))
    ensures SmallSigma0(x) == ((x >> 7) | (x << 25)) ^ ((x >> 18) | (x << 14)) ^ (x >> 3)
    ensures SmallSigma1(x) == ((x >> 17) | (x << 15)) ^ ((x >> 19) | (x << 13)) ^ (x >> 10)
  {
  }

  // Section 5.1.1 and the result: bytes in, bytes out.

  lemma Be64IsBigEndian(n: nat)
    ensures var b := Be64(n);
            BigEndian(b[0], b[1], b[2], b[3]) * 0x1_0000_0000 + BigEndian(b[4], b[5], b[6], b[7])
              == n % 0x1_0000_0000_0000_0000
  {
    hide Be32, BigEndian;
    BytesOfNumber((n / TWO_TO_THE_32) % TWO_TO_THE_32);
    BytesOfNumber(n % TWO_TO_THE_32);
    TwoWords(n);
  }

  lemma TwoWords(n: nat)
    ensures n / 0x1_0000_0000 % 0x1_0000_0000 * 0x1_0000_0000 + n % 0x1_0000_0000 == n % 0x1_0000_0000_0000_0000
  {
  }

  /** What is appended makes whole blocks, with as few zeros as possible, and ends with the length in bits. */
  lemma PaddingIs(len: nat)
    ensures var p := Padding(len);
            && 9 <= |p| < 9 + 64 && (len + |p|) % 64 == 0
            && p[0] == 0x80 && (forall i :: 1 <= i < |p| - 8 ==> p[i] == 0) && p[|p| - 8..] == Be64(8 * len)
  {
    hide Be64;
  }

  /** The digest is made of the registers, most significant bytes first. */
  lemma RegsBytesAreBigEndian(r: Regs, k: nat)
    requires k < 8
    ensures var b := RegsBytes(r)[4 * k..4 * k + 4];
            [r.a, r.b, r.c, r.d, r.e, r.f, r.g, r.h][k] as int
              == ((b[0] as int * 256 + b[1] as int) * 256 + b[2] as int) * 256 + b[3] as int
  {
    BytesAreBigEndian([r.a, r.b, r.c, r.d, r.e, r.f, r.g, r.h][k]);
    BytesOfRegs(r, k);
    hide BytesOf, RegsBytes;
  }

  lemma BytesOfRegs(r: Regs, k: nat)
    requires k < 8
    ensures RegsBytes(r)[4 * k..4 * k + 4] == BytesOf([r.a, r.b, r.c, r.d, r.e, r.f, r.g, r.h][k])
  {
    hide BytesOf;
    Fourth(BytesOf(r.a), BytesOf(r.b), BytesOf(r.c), BytesOf(r.d), BytesOf(r.e), BytesOf(r.f), BytesOf(r.g),
           BytesOf(r.h), k);
  }

  lemma Fourth<T>(a: seq<T>, b: seq<T>, c: seq<T>, d: seq<T>, e: seq<T>, f: seq<T>, g: seq<T>, h: seq<T>, k: nat)
    requires |a| == |b| == |c| == |d| == |e| == |f| == |g| == |h| == 4 && k < 8
    ensures (a + b + c + d + e + f + g + h)[4 * k..4 * k + 4] == [a, b, c, d, e, f, g, h][k]
  {
    var s, front, back := a + b + c + d + e + f + g + h, a + b + c + d, e + f + g + h;
    assert s == front + back;
    if k < 4 {
      Quarter(a, b, c, d, k);
      assert s[4 * k..4 * k + 4] == front[4 * k..4 * k + 4];
    } else {
      Quarter(e, f, g, h, k - 4);
      assert s[4 * k..4 * k + 4] == back[4 * (k - 4)..4 * (k - 4) + 4];
    }
  }

  lemma Quarter<T>(a: seq<T>, b: seq<T>, c: seq<T>, d: seq<T>, k: nat)
    requires |a| == |b| == |c| == |d| == 4 && k < 4
    ensures (a + b + c + d)[4 * k..4 * k + 4] == [a, b, c, d][k]
  {
  }
}
