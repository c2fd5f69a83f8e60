/** The streaming interface of sha/sha256.c: `sha256_begin`, `sha256_update`, `sha256_end`. */
module Sha256 {
  import opened Common
  import opened Sha256Spec
  import opened Sha256Digest
  import opened Sha256Process

  /** The carry pair holds the number of bytes so far, modulo 2^64. */
  predicate Counts(total0: uint32, total1: uint32, n: nat) {
    total1 * TWO_TO_THE_32 + total0 == n % TWO_TO_THE_64
  }

  /** The two words of the length in bits: three bits move from the low word to the high one. */
  function HighBits(total0: uint32, total1: uint32): uint32 {
    (total1 * 8) % TWO_TO_THE_32 + total0 / 0x2000_0000  // no bit is set in both, so this is C's `|`
  }

  function LowBits(total0: uint32): uint32 {
    (total0 * 8) % TWO_TO_THE_32
  }

  lemma BitLength(total0: uint32, total1: uint32, n: nat)
    requires Counts(total0, total1, n)
    ensures HighBits(total0, total1) == (8 * n / TWO_TO_THE_32) % TWO_TO_THE_32
    ensures LowBits(total0) == 8 * n % TWO_TO_THE_32
  {
    var q := n / TWO_TO_THE_64;
    var c, t1 := total1 / 0x2000_0000, total1 % 0x2000_0000;
    var e, t0 := total0 / 0x2000_0000, total0 % 0x2000_0000;
    var high := 8 * t1 + e;
    Divided(8 * n, TWO_TO_THE_32, (8 * q + c) * TWO_TO_THE_32 + high, 8 * t0);
    Divided((8 * q + c) * TWO_TO_THE_32 + high, TWO_TO_THE_32, 8 * q + c, high);
    Divided(total1 * 8, TWO_TO_THE_32, c, 8 * t1);
    Divided(total0 * 8, TWO_TO_THE_32, e, 8 * t0);
  }

  /** Quotient and remainder are determined by what they are. */
  lemma Divided(n: int, d: int, q: int, r: int)
    requires 0 <= r < d && n == q * d + r
    ensures n / d == q && n % d == r
  {
    var k := q - n / d;
    Multiples(k, d);
    assert k * d == n % d - r;
  }

  lemma {:induction false} Multiples(k: int, d: int)
    requires d > 0
    ensures k > 0 ==> k * d >= d
    ensures k < 0 ==> k * d <= -d
    decreases if k >= 0 then k else -k
  {
    if k > 1 {
      Multiples(k - 1, d);
    } else if k < -1 {
      Multiples(k + 1, d);
    }
  }

  /** GET_ULONG_BE */
  function GetUlongBE(b: seq<byte>, i: nat): (n: Word)
    requires i + 4 <= |b|
    ensures n == WordAt(b, i)
  {
    ((b[i] as Word) << 24) | ((b[i + 1] as Word) << 16) | ((b[i + 2] as Word) << 8) | (b[i + 3] as Word)
  }

  lemma FirstWords(data: Block, w: seq<Word>)
    requires |w| == 16 && forall t :: 0 <= t < 16 ==> w[t] == GetUlongBE(data, 4 * t)
    ensures forall t :: 0 <= t < 16 ==> w[t] == Schedule(data, t)
  {
  }

  class Sha256Context {
    var total0: uint32
    var total1: uint32
    var state: Regs
    const buffer: array<byte>
    /** The bytes given to `Update` since `Begin`: whole blocks already in the state, then the rest. */
    ghost var hashed: seq<byte>
    ghost var held: seq<byte>

    ghost predicate Valid()
      reads this, buffer
    {
      && Buffering()
      && Counts(total0, total1, |Message()|)
    }

    ghost predicate Buffering()
      reads this, buffer
    {
      && buffer.Length == 64
      && IsState(state, hashed)
      && |held| < 64 && buffer[..|held|] == held
    }

    ghost function Message(): seq<byte>
      reads this
    {
      hashed + held
    }

    constructor ()
      ensures Valid() && Message() == [] && fresh(buffer)
    {
      total0, total1, state, hashed, held := 0, 0, H0, [], [];
      buffer := new byte[64];
    }

    /** `sha256_begin` */
    method Begin()
      requires buffer.Length == 64
      modifies this
      ensures Valid() && Message() == []
    {
      total0, total1 := 0, 0;
      state := Regs(0x6A09E667, 0xBB67AE85, 0x3C6EF372, 0xA54FF53A,
                    0x510E527F, 0x9B05688C, 0x1F83D9AB, 0x5BE0CD19);
      hashed, held := [], [];
    }

    /** `sha256_process` */
    method Process(data: Block)
      modifies `state
      ensures state == Compress(old(state), data)
    {
      var w := seq(16, t requires 0 <= t < 16 => GetUlongBE(data, 4 * t));
      FirstWords(data, w);
      var r := AllRounds(state, w, data);
      state := AddRegs(state, r);
    }

    /** Compress the next block of the message, wherever it lies. */
    method Absorb(data: Block)
      requires IsState(state, hashed)
      modifies `state, `hashed
      ensures hashed == old(hashed) + data && IsState(state, hashed)
    {
      Process(data);
      StateSnoc(old(state), hashed, data);
      hashed := hashed + data;
    }

    /** `sha256_end`: padding, then the digest into the first 32 bytes of the output. */
    method End(output: array<byte>)
      requires Valid() && output.Length >= 32 && output != buffer
      modifies this, buffer, output
      ensures output[..32] == Digest(old(Message()))
      ensures output[32..] == old(output[32..])
    {
      hide IsState, Counts, Digest, RegsBytes, Be32, HighBits, LowBits, Padding;
      var high, low := HighBits(total0, total1), LowBits(total0);
      var msglen := Be32(high) + Be32(low);
      LeftOver(total0, total1, state, hashed, held);
      var last := total0 % 64;
      var padn := if last < 56 then 56 - last else 120 - last;
      FinalLength(state, hashed, held, padn);
      PaddingIsFips(total0, total1, |Message()|, padn);
      ghost var msg := Message();
      Update(SHA2_PADDING, padn);
      Update(msglen, 8);
      assert Message() == Pad(msg);
      FinalState(state, hashed, held, msg);
      var digest := RegsBytes(state);
      forall i | 0 <= i < 32 {
        output[i] := digest[i];
      }
    }

    /** The memcpy calls into the block buffer, behind what it already holds. */
    method CopyIn(left: nat, bytes: seq<byte>)
      requires buffer.Length == 64 && left + |bytes| <= 64
      modifies buffer
      ensures buffer[..left + |bytes|] == old(buffer[..left]) + bytes
    {
      forall i | 0 <= i < |bytes| {
        buffer[left + i] := bytes[i];
      }
    }

    /** Adding to `total`, with the carry. */
    method AddLength(ilen: int32)
      requires ilen > 0 && Counts(total0, total1, |Message()|)
      modifies `total0, `total1
      ensures Counts(total0, total1, |Message()| + ilen)
    {
      CarryCounts(total0, total1, |Message()|, ilen);
      total0 := Add32(total0, ilen);
      if total0 < ilen {
        total1 := Add32(total1, 1);
      }
    }

    /** The low six bits of the counter say how much the buffer holds. */
    lemma HeldBack()
      requires Valid()
      ensures total0 % 64 == |held| < 64
    {
      LeftOver(total0, total1, state, hashed, held);
    }

    /** `sha256_update` with the portable branch. The length is a C int, and a non-positive one is ignored. */
    method Update(input: seq<byte>, ilen: int32)
      requires Valid() && ilen <= |input|
      modifies this, buffer
      ensures Valid()
      ensures Message() == old(Message()) + FirstBytes(input, ilen)
    {
      hide IsState, Counts;
      if ilen <= 0 {
        assert Message() + [] == Message();
        return;
      }
      HeldBack();
      var left := total0 % 64;
      AddLength(ilen);
      Feed(left, input, ilen);
    }

    method Feed(left: uint32, input: seq<byte>, ilen: int32)
      requires Buffering() && left == |held| && 0 < ilen <= |input|
      modifies buffer, `state, `hashed, `held
      ensures Buffering() && Message() == old(Message()) + input[..ilen]
    {
      hide IsState;
      var start, left' := CompleteBlock(left, input, ilen);
      var pos := AbsorbBlocks(input, start, ilen);
      KeepRest(left', input[pos..ilen]);
    }

    /** The first branch: a partly filled buffer is completed from the front of the input and compressed. */
    method CompleteBlock(left: uint32, input: seq<byte>, ilen: int32)
      returns (start: nat, left': uint32)
      requires Buffering() && left == |held| && 0 < ilen <= |input|
      modifies buffer, `state, `hashed, `held
      ensures Buffering() && start <= ilen
      ensures Message() + input[start..ilen] == old(Message()) + input[..ilen]
      ensures left' == |held| && (left' == 0 || ilen - start < 64 - left')
      ensures IsState(state, hashed)
    {
      hide IsState;
      var fill := 64 - left;
      start, left' := 0, left;
      if left != 0 && ilen >= fill {
        CopyIn(left, input[..fill]);
        assert buffer[..] == held + input[..fill];
        JoinBlock(hashed, held, input[..fill], input[fill..ilen], input[..ilen]);
        Absorb(buffer[..]);
        held, start, left' := [], fill, 0;
      }
    }

    /** The last branch: what does not fill a block is held back in the buffer. */
    method KeepRest(left: uint32, rest: seq<byte>)
      requires Buffering() && left == |held| && left + |rest| < 64
      modifies buffer, `held
      ensures Buffering() && Message() == old(Message()) + rest
    {
      hide IsState;
      if |rest| > 0 {
        CopyIn(left, rest);
      }
      held := held + rest;
      assert (hashed + old(held)) + rest == hashed + held;
    }

    /** The loop over the blocks that lie wholly inside the input. */
    method AbsorbBlocks(input: seq<byte>, start: nat, ilen: int32) returns (pos: nat)
      requires start <= ilen <= |input| && IsState(state, hashed)
      modifies `state, `hashed
      ensures start <= pos <= ilen < pos + 64 && (ilen - start < 64 ==> pos == start) && held == old(held)
      ensures IsState(state, hashed) && hashed == old(hashed) + input[start..pos]
      ensures held == [] || ilen - start < 64 ==>
                Message() + input[pos..ilen] == old(Message()) + input[start..ilen]
    {
      hide IsState, Counts;
      pos := start;
      while ilen - pos >= 64
        invariant start <= pos <= ilen && (ilen - start < 64 ==> pos == start)
        invariant IsState(state, hashed) && hashed == old(hashed) + input[start..pos] && held == old(held)
      {
        Absorb(input[pos..pos + 64]);
        assert input[start..pos + 64] == input[start..pos] + input[pos..pos + 64];
        pos := pos + 64;
      }
      if held == [] || pos == start {
        JoinRest(old(hashed), held, input[start..pos], input[pos..ilen], input[start..ilen]);
      }
    }
  }

  /** The state is H after all blocks of `hashed`, which holds nothing but whole blocks. */
  ghost predicate IsState(state: Regs, hashed: seq<byte>) {
    |hashed| % 64 == 0 && state == FoldBlocks(H0, hashed, |hashed| / 64)
  }

  lemma StateSnoc(state: Regs, hashed: seq<byte>, block: Block)
    requires IsState(state, hashed)
    ensures IsState(Compress(state, block), hashed + block)
  {
    hide Compress;
    FoldPrefix(H0, hashed, block, |hashed| / 64);
    assert (hashed + block)[|hashed|..|hashed| + 64] == block;
  }

  // However an input is cut into a completed block, whole blocks and a rest, no byte is lost or moved.

  lemma JoinBlock(h: seq<byte>, e: seq<byte>, x: seq<byte>, y: seq<byte>, xy: seq<byte>)
    requires x + y == xy
    ensures ((h + (e + x)) + []) + y == (h + e) + xy
  {
  }

  lemma JoinRest(h: seq<byte>, e: seq<byte>, x: seq<byte>, y: seq<byte>, xy: seq<byte>)
    requires x + y == xy && (e == [] || x == [])
    ensures (h + x) + (e + y) == (h + e) + xy
  {
  }

  function FirstBytes(input: seq<byte>, ilen: int32): seq<byte>
    requires ilen <= |input|
  {
    if ilen <= 0 then [] else input[..ilen]
  }

  /** The two-word counter after adding ilen and carrying. */
  lemma CarryCounts(total0: uint32, total1: uint32, n: nat, ilen: int32)
    requires Counts(total0, total1, n) && ilen > 0
    ensures var t := Add32(total0, ilen);
            Counts(t, if t < ilen then Add32(total1, 1) else total1, n + ilen)
  {
    var q := n / TWO_TO_THE_64;
    var low, carry := (total0 + ilen) % TWO_TO_THE_32, (total0 + ilen) / TWO_TO_THE_32;
    var high, over := (total1 + carry) % TWO_TO_THE_32, (total1 + carry) / TWO_TO_THE_32;
    assert carry == if low < ilen then 1 else 0;
    Divided(n + ilen, TWO_TO_THE_64, q + over, high * TWO_TO_THE_32 + low);
  }

  lemma LeftOver(total0: uint32, total1: uint32, state: Regs, hashed: seq<byte>, held: seq<byte>)
    requires Counts(total0, total1, |hashed + held|) && IsState(state, hashed) && |held| < 64
    ensures total0 % 64 == |held|
  {
    hide FoldBlocks;
    var n, blocks := |hashed + held|, |hashed| / 64;
    var whole := n / TWO_TO_THE_64 * (TWO_TO_THE_64 / 64) + total1 * (TWO_TO_THE_32 / 64);
    assert n == 64 * whole + total0;
    Divided(n, 64, blocks, |held|);
    Divided(n, 64, whole + total0 / 64, total0 % 64);
  }

  lemma FinalLength(state: Regs, hashed: seq<byte>, held: seq<byte>, padn: nat)
    requires IsState(state, hashed) && |held| < 64
    requires padn == if |held| < 56 then 56 - |held| else 120 - |held|
    ensures padn == if |hashed + held| % 64 < 56 then 56 - |hashed + held| % 64 else 120 - |hashed + held| % 64
  {
  }

  /** After the padding nothing is held back, so the state is the digest. */
  lemma FinalState(state: Regs, hashed: seq<byte>, held: seq<byte>, msg: seq<byte>)
    requires IsState(state, hashed) && |held| < 64 && hashed + held == Pad(msg)
    ensures RegsBytes(state) == Digest(msg)
  {
    hide FoldBlocks, RegsBytes, Padding;
    PadIsWhole(msg);
    assert |held| == |Pad(msg)| % 64;
    assert hashed == Pad(msg);
  }

  const SHA2_PADDING: seq<byte> := [0x80] + seq(63, _ => 0)

  /** What `sha256_end` appends, in two updates, is the padding of the standard. */
  lemma PaddingIsFips(total0: uint32, total1: uint32, n: nat, padn: nat)
    requires Counts(total0, total1, n)
    requires padn == if n % 64 < 56 then 56 - n % 64 else 120 - n % 64
    ensures SHA2_PADDING[..padn] + (Be32(HighBits(total0, total1)) + Be32(LowBits(total0))) == Padding(n)
  {
    hide HighBits, LowBits, Counts, Be32;
    BitLength(total0, total1, n);
    PadLength(n, padn);
    assert SHA2_PADDING[..padn] == [0x80] + seq(PadZeros(n), _ => 0);
  }

  lemma PadLength(n: nat, padn: nat)
    requires padn == if n % 64 < 56 then 56 - n % 64 else 120 - n % 64
    ensures padn == 1 + PadZeros(n)
  {
    var q, r := n / 64, n % 64;
    if r < 56 {
      Divided(55 - n, 64, -q, 55 - r);
    } else {
      Divided(55 - n, 64, -q - 1, 119 - r);
    }
  }

  /** `sha256`: the one-shot form. */
  method Sha256Of(input: seq<byte>, ilen: int32, output: array<byte>)
    requires ilen <= |input| && output.Length >= 32
    modifies output
    ensures output[..32] == Digest(FirstBytes(input, ilen))
    ensures output[32..] == old(output[32..])
  {
    hide *;
    var ctx := new Sha256Context();
    ctx.Update(input, ilen);
    assert [] + FirstBytes(input, ilen) == FirstBytes(input, ilen);
    ctx.End(output);
  }

  function Concat(parts: seq<seq<byte>>): seq<byte> {
    if parts == [] then [] else parts[0] + Concat(parts[1..])
  }

  lemma {:induction false} ConcatSnoc(parts: seq<seq<byte>>, n: nat)
    requires n < |parts|
    ensures Concat(parts[..n + 1]) == Concat(parts[..n]) + parts[n]
  {
    if n == 0 {
      assert parts[..1][1..] == [];
    } else {
      ConcatSnoc(parts[1..], n - 1);
      assert parts[..n + 1][1..] == parts[1..][..n] && parts[..n][1..] == parts[1..][..n - 1];
    }
  }

  /** However a caller cuts a message into the inputs of `Update`, the digest is the digest of the whole. */
  method HashParts(parts: seq<seq<byte>>, output: array<byte>)
    requires output.Length >= 32 && forall k :: 0 <= k < |parts| ==> |parts[k]| < 0x8000_0000
    modifies output
    ensures output[..32] == Digest(Concat(parts))
    ensures output[32..] == old(output[32..])
  {
    hide Digest, Counts, IsState;
    var ctx := new Sha256Context();
    for n := 0 to |parts|
      invariant ctx.Valid() && fresh(ctx) && fresh(ctx.buffer) && ctx.Message() == Concat(parts[..n])
      invariant output[..] == old(output[..])
    {
      ConcatSnoc(parts, n);
      ctx.Update(parts[n], |parts[n]|);
    }
    assert parts[..|parts|] == parts;
    ctx.End(output);
  }
}
