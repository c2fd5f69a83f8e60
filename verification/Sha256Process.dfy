/** `sha256_process`: 64 unrolled rounds that rotate register names instead of register contents. */
module Sha256Process {
  import opened Common
  import opened Sha256Spec

  function S0(x: Word): Word {
    ((x >> 7) | (x << 25)) ^ ((x >> 18) | (x << 14)) ^ (x >> 3)
  }

  function S1(x: Word): Word {
    ((x >> 17) | (x << 15)) ^ ((x >> 19) | (x << 13)) ^ (x >> 10)
  }

  function S2(x: Word): Word {
    ((x >> 2) | (x << 30)) ^ ((x >> 13) | (x << 19)) ^ ((x >> 22) | (x << 10))
  }

  function S3(x: Word): Word {
    ((x >> 6) | (x << 26)) ^ ((x >> 11) | (x << 21)) ^ ((x >> 25) | (x << 7))
  }

  function F0(x: Word, y: Word, z: Word): Word {
    (x & y) | (z & (x | y))
  }

  function F1(x: Word, y: Word, z: Word): Word {
    z ^ (x & (y ^ z))
  }

  lemma S0IsSmallSigma0(x: Word)
    ensures S0(x) == SmallSigma0(x)
  {
  }

  lemma S1IsSmallSigma1(x: Word)
    ensures S1(x) == SmallSigma1(x)
  {
  }

  lemma S2IsBigSigma0(x: Word)
    ensures S2(x) == BigSigma0(x)
  {
  }

  lemma S3IsBigSigma1(x: Word)
    ensures S3(x) == BigSigma1(x)
  {
  }

  lemma MajorityBits(x: bv32, y: bv32, z: bv32)
    ensures (x & y) | (z & (x | y)) == (x & y) ^ (x & z) ^ (y & z)
  {
  }

  lemma ChoiceBits(x: bv32, y: bv32, z: bv32)
    ensures z ^ (x & (y ^ z)) == (x & y) ^ (!x & z)
  {
  }

  lemma F0IsMaj(x: Word, y: Word, z: Word)
    ensures F0(x, y, z) == Maj(x, y, z)
  {
    MajorityBits(x, y, z);
  }

  lemma F1IsCh(x: Word, y: Word, z: Word)
    ensures F1(x, y, z) == Ch(x, y, z)
  {
    ChoiceBits(x, y, z);
  }

  lemma Temp1IsT1(e: Word, f: Word, g: Word, h: Word, x: Word, k: Word)
    ensures Add(Add(Add(Add(h, S3(e)), F1(e, f, g)), k), x) == T1(e, f, g, h, k, x)
  {
    S3IsBigSigma1(e);
    F1IsCh(e, f, g);
  }

  lemma Temp2IsT2(a: Word, b: Word, c: Word)
    ensures Add(S2(a), F0(a, b, c)) == T2(a, b, c)
  {
    S2IsBigSigma0(a);
    F0IsMaj(a, b, c);
  }

  /** The names of all intermediate results for one block: registers, constants and schedule. */
  datatype Trace = Trace(regs: seq<Regs>, ks: seq<Word>, ws: seq<Word>)

  // At and Slot hold of everything. They are the triggers of the two quantifiers below, which
  // keeps the verifier from unfolding all 64 rounds at once.
  ghost predicate At(t: nat) { true }

  ghost predicate Slot(t: nat) { true }

  ghost predicate IsTrace(tr: Trace)
  {
    && |tr.regs| == 65 && |tr.ks| == 64 && |tr.ws| == 64
    && (forall t: nat {:trigger At(t)} :: At(t) && t < 64 ==> tr.regs[t + 1] == Round(tr.regs[t], tr.ks[t], tr.ws[t]))
    && (forall t: nat {:trigger At(t)} :: At(t) && 16 <= t < 64 ==>
      tr.ws[t] == NextWord(tr.ws[t - 2], tr.ws[t - 7], tr.ws[t - 15], tr.ws[t - 16]))
  }

  ghost predicate HasRow(ks: seq<Word>, row: nat)
    requires |ks| == 64 && row < 8
  {
    ks[8 * row..8 * row + 8] == KRow(row)
  }

  /** The macro P. It overwrites only d and h; the caller renames the other six registers. */
  method P(a: Word, b: Word, c: Word, d: Word, e: Word, f: Word, g: Word, h: Word, x: Word, k: Word,
           ghost tr: Trace, ghost t: nat)
    returns (d': Word, h': Word)
    requires IsTrace(tr) && t < 64 && tr.regs[t] == Regs(a, b, c, d, e, f, g, h)
    requires k == tr.ks[t] && x == tr.ws[t]
    ensures tr.regs[t + 1] == Regs(h', a, b, c, d', e, f, g)
  {
    assert At(t);
    Temp1IsT1(e, f, g, h, x, k);
    Temp2IsT2(a, b, c);
    var temp1 := Add(Add(Add(Add(h, S3(e)), F1(e, f, g)), k), x);
    var temp2 := Add(S2(a), F0(a, b, c));
    d' := Add(d, temp1);
    h' := Add(temp1, temp2);
  }

  lemma RIsNextWord(w2: Word, w7: Word, w15: Word, w16: Word)
    ensures Add(Add(Add(S1(w2), w7), S0(w15)), w16) == NextWord(w2, w7, w15, w16)
  {
    S1IsSmallSigma1(w2);
    S0IsSmallSigma0(w15);
  }

  ghost predicate Loaded(w: seq<Word>, ws: seq<Word>, n: nat)
  {
    n <= |w| && n <= |ws| && forall k: nat {:trigger Slot(k)} :: Slot(k) && k < n ==> w[k] == ws[k]
  }

  /** The macro R: it extends the schedule in place, one word per round. */
  method R(w: seq<Word>, t: nat, ghost tr: Trace) returns (w': seq<Word>, x: Word)
    requires IsTrace(tr)
    requires |w| == 64 && 16 <= t < 64 && Loaded(w, tr.ws, t)
    ensures |w'| == 64 && Loaded(w', tr.ws, t + 1)
    ensures x == tr.ws[t]
  {
    assert At(t) && Slot(t - 2) && Slot(t - 7) && Slot(t - 15) && Slot(t - 16);
    RIsNextWord(w[t - 2], w[t - 7], w[t - 15], w[t - 16]);
    w' := w[t := Add(Add(Add(S1(w[t - 2]), w[t - 7]), S0(w[t - 15])), w[t - 16])];
    x := w'[t];
  }

  method Rounds0To7(cur: Regs, w: seq<Word>, ghost tr: Trace) returns (next: Regs)
    requires IsTrace(tr) && HasRow(tr.ks, 0)
    requires |w| == 64 && Loaded(w, tr.ws, 16)
    requires cur == tr.regs[0]
    ensures next == tr.regs[8]
  {
    var A, B, C, D, E, F, G, H := cur.a, cur.b, cur.c, cur.d, cur.e, cur.f, cur.g, cur.h;
    assert tr.ks[0] == tr.ks[0..8][0];
    assert Slot(0);
    D, H := P(A, B, C, D, E, F, G, H, w[0], 0x428A2F98, tr, 0);
    assert tr.ks[1] == tr.ks[0..8][1];
    assert Slot(1);
    C, G := P(H, A, B, C, D, E, F, G, w[1], 0x71374491, tr, 1);
    assert tr.ks[2] == tr.ks[0..8][2];
    assert Slot(2);
    B, F := P(G, H, A, B, C, D, E, F, w[2], 0xB5C0FBCF, tr, 2);
    assert tr.ks[3] == tr.ks[0..8][3];
    assert Slot(3);
    A, E := P(F, G, H, A, B, C, D, E, w[3], 0xE9B5DBA5, tr, 3);
    assert tr.ks[4] == tr.ks[0..8][4];
    assert Slot(4);
    H, D := P(E, F, G, H, A, B, C, D, w[4], 0x3956C25B, tr, 4);
    assert tr.ks[5] == tr.ks[0..8][5];
    assert Slot(5);
    G, C := P(D, E, F, G, H, A, B, C, w[5], 0x59F111F1, tr, 5);
    assert tr.ks[6] == tr.ks[0..8][6];
    assert Slot(6);
    F, B := P(C, D, E, F, G, H, A, B, w[6], 0x923F82A4, tr, 6);
    assert tr.ks[7] == tr.ks[0..8][7];
    assert Slot(7);
    E, A := P(B, C, D, E, F, G, H, A, w[7], 0xAB1C5ED5, tr, 7);
    next := Regs(A, B, C, D, E, F, G, H);
  }

  method Rounds8To15(cur: Regs, w: seq<Word>, ghost tr: Trace) returns (next: Regs)
    requires IsTrace(tr) && HasRow(tr.ks, 1)
    requires |w| == 64 && Loaded(w, tr.ws, 16)
    requires cur == tr.regs[8]
    ensures next == tr.regs[16]
  {
    var A, B, C, D, E, F, G, H := cur.a, cur.b, cur.c, cur.d, cur.e, cur.f, cur.g, cur.h;
    assert tr.ks[8] == tr.ks[8..16][0];
    assert Slot(8);
    D, H := P(A, B, C, D, E, F, G, H, w[8], 0xD807AA98, tr, 8);
    assert tr.ks[9] == tr.ks[8..16][1];
    assert Slot(9);
    C, G := P(H, A, B, C, D, E, F, G, w[9], 0x12835B01, tr, 9);
    assert tr.ks[10] == tr.ks[8..16][2];
    assert Slot(10);
    B, F := P(G, H, A, B, C, D, E, F, w[10], 0x243185BE, tr, 10);
    assert tr.ks[11] == tr.ks[8..16][3];
    assert Slot(11);
    A, E := P(F, G, H, A, B, C, D, E, w[11], 0x550C7DC3, tr, 11);
    assert tr.ks[12] == tr.ks[8..16][4];
    assert Slot(12);
    H, D := P(E, F, G, H, A, B, C, D, w[12], 0x72BE5D74, tr, 12);
    assert tr.ks[13] == tr.ks[8..16][5];
    assert Slot(13);
    G, C := P(D, E, F, G, H, A, B, C, w[13], 0x80DEB1FE, tr, 13);
    assert tr.ks[14] == tr.ks[8..16][6];
    assert Slot(14);
    F, B := P(C, D, E, F, G, H, A, B, w[14], 0x9BDC06A7, tr, 14);
    assert tr.ks[15] == tr.ks[8..16][7];
    assert Slot(15);
    E, A := P(B, C, D, E, F, G, H, A, w[15], 0xC19BF174, tr, 15);
    next := Regs(A, B, C, D, E, F, G, H);
  }

  method Rounds16To23(cur: Regs, w: seq<Word>, ghost tr: Trace) returns (next: Regs, w': seq<Word>)
    requires IsTrace(tr) && HasRow(tr.ks, 2)
    requires |w| == 64 && Loaded(w, tr.ws, 16)
    requires cur == tr.regs[16]
    ensures next == tr.regs[24]
    ensures |w'| == 64 && Loaded(w', tr.ws, 24)
  {
    var A, B, C, D, E, F, G, H := cur.a, cur.b, cur.c, cur.d, cur.e, cur.f, cur.g, cur.h;
    var x;
    w' := w;
    w', x := R(w', 16, tr);
    assert tr.ks[16] == tr.ks[16..24][0];
    D, H := P(A, B, C, D, E, F, G, H, x, 0xE49B69C1, tr, 16);
    w', x := R(w', 17, tr);
    assert tr.ks[17] == tr.ks[16..24][1];
    C, G := P(H, A, B, C, D, E, F, G, x, 0xEFBE4786, tr, 17);
    w', x := R(w', 18, tr);
    assert tr.ks[18] == tr.ks[16..24][2];
    B, F := P(G, H, A, B, C, D, E, F, x, 0x0FC19DC6, tr, 18);
    w', x := R(w', 19, tr);
    assert tr.ks[19] == tr.ks[16..24][3];
    A, E := P(F, G, H, A, B, C, D, E, x, 0x240CA1CC, tr, 19);
    w', x := R(w', 20, tr);
    assert tr.ks[20] == tr.ks[16..24][4];
    H, D := P(E, F, G, H, A, B, C, D, x, 0x2DE92C6F, tr, 20);
    w', x := R(w', 21, tr);
    assert tr.ks[21] == tr.ks[16..24][5];
    G, C := P(D, E, F, G, H, A, B, C, x, 0x4A7484AA, tr, 21);
    w', x := R(w', 22, tr);
    assert tr.ks[22] == tr.ks[16..24][6];
    F, B := P(C, D, E, F, G, H, A, B, x, 0x5CB0A9DC, tr, 22);
    w', x := R(w', 23, tr);
    assert tr.ks[23] == tr.ks[16..24][7];
    E, A := P(B, C, D, E, F, G, H, A, x, 0x76F988DA, tr, 23);
    next := Regs(A, B, C, D, E, F, G, H);
  }

  method Rounds24To31(cur: Regs, w: seq<Word>, ghost tr: Trace) returns (next: Regs, w': seq<Word>)
    requires IsTrace(tr) && HasRow(tr.ks, 3)
    requires |w| == 64 && Loaded(w, tr.ws, 24)
    requires cur == tr.regs[24]
    ensures next == tr.regs[32]
    ensures |w'| == 64 && Loaded(w', tr.ws, 32)
  {
    var A, B, C, D, E, F, G, H := cur.a, cur.b, cur.c, cur.d, cur.e, cur.f, cur.g, cur.h;
    var x;
    w' := w;
    w', x := R(w', 24, tr);
    assert tr.ks[24] == tr.ks[24..32][0];
    D, H := P(A, B, C, D, E, F, G, H, x, 0x983E5152, tr, 24);
    w', x := R(w', 25, tr);
    assert tr.ks[25] == tr.ks[24..32][1];
    C, G := P(H, A, B, C, D, E, F, G, x, 0xA831C66D, tr, 25);
    w', x := R(w', 26, tr);
    assert tr.ks[26] == tr.ks[24..32][2];
    B, F := P(G, H, A, B, C, D, E, F, x, 0xB00327C8, tr, 26);
    w', x := R(w', 27, tr);
    assert tr.ks[27] == tr.ks[24..32][3];
    A, E := P(F, G, H, A, B, C, D, E, x, 0xBF597FC7, tr, 27);
    w', x := R(w', 28, tr);
    assert tr.ks[28] == tr.ks[24..32][4];
    H, D := P(E, F, G, H, A, B, C, D, x, 0xC6E00BF3, tr, 28);
    w', x := R(w', 29, tr);
    assert tr.ks[29] == tr.ks[24..32][5];
    G, C := P(D, E, F, G, H, A, B, C, x, 0xD5A79147, tr, 29);
    w', x := R(w', 30, tr);
    assert tr.ks[30] == tr.ks[24..32][6];
    F, B := P(C, D, E, F, G, H, A, B, x, 0x06CA6351, tr, 30);
    w', x := R(w', 31, tr);
    assert tr.ks[31] == tr.ks[24..32][7];
    E, A := P(B, C, D, E, F, G, H, A, x, 0x14292967, tr, 31);
    next := Regs(A, B, C, D, E, F, G, H);
  }

  method Rounds32To39(cur: Regs, w: seq<Word>, ghost tr: Trace) returns (next: Regs, w': seq<Word>)
    requires IsTrace(tr) && HasRow(tr.ks, 4)
    requires |w| == 64 && Loaded(w, tr.ws, 32)
    requires cur == tr.regs[32]
    ensures next == tr.regs[40]
    ensures |w'| == 64 && Loaded(w', tr.ws, 40)
  {
    var A, B, C, D, E, F, G, H := cur.a, cur.b, cur.c, cur.d, cur.e, cur.f, cur.g, cur.h;
    var x;
    w' := w;
    w', x := R(w', 32, tr);
    assert tr.ks[32] == tr.ks[32..40][0];
    D, H := P(A, B, C, D, E, F, G, H, x, 0x27B70A85, tr, 32);
    w', x := R(w', 33, tr);
    assert tr.ks[33] == tr.ks[32..40][1];
    C, G := P(H, A, B, C, D, E, F, G, x, 0x2E1B2138, tr, 33);
    w', x := R(w', 34, tr);
    assert tr.ks[34] == tr.ks[32..40][2];
    B, F := P(G, H, A, B, C, D, E, F, x, 0x4D2C6DFC, tr, 34);
    w', x := R(w', 35, tr);
    assert tr.ks[35] == tr.ks[32..40][3];
    A, E := P(F, G, H, A, B, C, D, E, x, 0x53380D13, tr, 35);
    w', x := R(w', 36, tr);
    assert tr.ks[36] == tr.ks[32..40][4];
    H, D := P(E, F, G, H, A, B, C, D, x, 0x650A7354, tr, 36);
    w', x := R(w', 37, tr);
    assert tr.ks[37] == tr.ks[32..40][5];
    G, C := P(D, E, F, G, H, A, B, C, x, 0x766A0ABB, tr, 37);
    w', x := R(w', 38, tr);
    assert tr.ks[38] == tr.ks[32..40][6];
    F, B := P(C, D, E, F, G, H, A, B, x, 0x81C2C92E, tr, 38);
    w', x := R(w', 39, tr);
    assert tr.ks[39] == tr.ks[32..40][7];
    E, A := P(B, C, D, E, F, G, H, A, x, 0x92722C85, tr, 39);
    next := Regs(A, B, C, D, E, F, G, H);
  }

  method Rounds40To47(cur: Regs, w: seq<Word>, ghost tr: Trace) returns (next: Regs, w': seq<Word>)
    requires IsTrace(tr) && HasRow(tr.ks, 5)
    requires |w| == 64 && Loaded(w, tr.ws, 40)
    requires cur == tr.regs[40]
    ensures next == tr.regs[48]
    ensures |w'| == 64 && Loaded(w', tr.ws, 48)
  {
    var A, B, C, D, E, F, G, H := cur.a, cur.b, cur.c, cur.d, cur.e, cur.f, cur.g, cur.h;
    var x;
    w' := w;
    w', x := R(w', 40, tr);
    assert tr.ks[40] == tr.ks[40..48][0];
    D, H := P(A, B, C, D, E, F, G, H, x, 0xA2BFE8A1, tr, 40);
    w', x := R(w', 41, tr);
    assert tr.ks[41] == tr.ks[40..48][1];
    C, G := P(H, A, B, C, D, E, F, G, x, 0xA81A664B, tr, 41);
    w', x := R(w', 42, tr);
    assert tr.ks[42] == tr.ks[40..48][2];
    B, F := P(G, H, A, B, C, D, E, F, x, 0xC24B8B70, tr, 42);
    w', x := R(w', 43, tr);
    assert tr.ks[43] == tr.ks[40..48][3];
    A, E := P(F, G, H, A, B, C, D, E, x, 0xC76C51A3, tr, 43);
    w', x := R(w', 44, tr);
    assert tr.ks[44] == tr.ks[40..48][4];
    H, D := P(E, F, G, H, A, B, C, D, x, 0xD192E819, tr, 44);
    w', x := R(w', 45, tr);
    assert tr.ks[45] == tr.ks[40..48][5];
    G, C := P(D, E, F, G, H, A, B, C, x, 0xD6990624, tr, 45);
    w', x := R(w', 46, tr);
    assert tr.ks[46] == tr.ks[40..48][6];
    F, B := P(C, D, E, F, G, H, A, B, x, 0xF40E3585, tr, 46);
    w', x := R(w', 47, tr);
    assert tr.ks[47] == tr.ks[40..48][7];
    E, A := P(B, C, D, E, F, G, H, A, x, 0x106AA070, tr, 47);
    next := Regs(A, B, C, D, E, F, G, H);
  }

  method Rounds48To55(cur: Regs, w: seq<Word>, ghost tr: Trace) returns (next: Regs, w': seq<Word>)
    requires IsTrace(tr) && HasRow(tr.ks, 6)
    requires |w| == 64 && Loaded(w, tr.ws, 48)
    requires cur == tr.regs[48]
    ensures next == tr.regs[56]
    ensures |w'| == 64 && Loaded(w', tr.ws, 56)
  {
    var A, B, C, D, E, F, G, H := cur.a, cur.b, cur.c, cur.d, cur.e, cur.f, cur.g, cur.h;
    var x;
    w' := w;
    w', x := R(w', 48, tr);
    assert tr.ks[48] == tr.ks[48..56][0];
    D, H := P(A, B, C, D, E, F, G, H, x, 0x19A4C116, tr, 48);
    w', x := R(w', 49, tr);
    assert tr.ks[49] == tr.ks[48..56][1];
    C, G := P(H, A, B, C, D, E, F, G, x, 0x1E376C08, tr, 49);
    w', x := R(w', 50, tr);
    assert tr.ks[50] == tr.ks[48..56][2];
    B, F := P(G, H, A, B, C, D, E, F, x, 0x2748774C, tr, 50);
    w', x := R(w', 51, tr);
    assert tr.ks[51] == tr.ks[48..56][3];
    A, E := P(F, G, H, A, B, C, D, E, x, 0x34B0BCB5, tr, 51);
    w', x := R(w', 52, tr);
    assert tr.ks[52] == tr.ks[48..56][4];
    H, D := P(E, F, G, H, A, B, C, D, x, 0x391C0CB3, tr, 52);
    w', x := R(w', 53, tr);
    assert tr.ks[53] == tr.ks[48..56][5];
    G, C := P(D, E, F, G, H, A, B, C, x, 0x4ED8AA4A, tr, 53);
    w', x := R(w', 54, tr);
    assert tr.ks[54] == tr.ks[48..56][6];
    F, B := P(C, D, E, F, G, H, A, B, x, 0x5B9CCA4F, tr, 54);
    w', x := R(w', 55, tr);
    assert tr.ks[55] == tr.ks[48..56][7];
    E, A := P(B, C, D, E, F, G, H, A, x, 0x682E6FF3, tr, 55);
    next := Regs(A, B, C, D, E, F, G, H);
  }

  method Rounds56To63(cur: Regs, w: seq<Word>, ghost tr: Trace) returns (next: Regs, w': seq<Word>)
    requires IsTrace(tr) && HasRow(tr.ks, 7)
    requires |w| == 64 && Loaded(w, tr.ws, 56)
    requires cur == tr.regs[56]
    ensures next == tr.regs[64]
    ensures |w'| == 64 && Loaded(w', tr.ws, 64)
  {
    var A, B, C, D, E, F, G, H := cur.a, cur.b, cur.c, cur.d, cur.e, cur.f, cur.g, cur.h;
    var x;
    w' := w;
    w', x := R(w', 56, tr);
    assert tr.ks[56] == tr.ks[56..64][0];
    D, H := P(A, B, C, D, E, F, G, H, x, 0x748F82EE, tr, 56);
    w', x := R(w', 57, tr);
    assert tr.ks[57] == tr.ks[56..64][1];
    C, G := P(H, A, B, C, D, E, F, G, x, 0x78A5636F, tr, 57);
    w', x := R(w', 58, tr);
    assert tr.ks[58] == tr.ks[56..64][2];
    B, F := P(G, H, A, B, C, D, E, F, x, 0x84C87814, tr, 58);
    w', x := R(w', 59, tr);
    assert tr.ks[59] == tr.ks[56..64][3];
    A, E := P(F, G, H, A, B, C, D, E, x, 0x8CC70208, tr, 59);
    w', x := R(w', 60, tr);
    assert tr.ks[60] == tr.ks[56..64][4];
    H, D := P(E, F, G, H, A, B, C, D, x, 0x90BEFFFA, tr, 60);
    w', x := R(w', 61, tr);
    assert tr.ks[61] == tr.ks[56..64][5];
    G, C := P(D, E, F, G, H, A, B, C, x, 0xA4506CEB, tr, 61);
    w', x := R(w', 62, tr);
    assert tr.ks[62] == tr.ks[56..64][6];
    F, B := P(C, D, E, F, G, H, A, B, x, 0xBEF9A3F7, tr, 62);
    w', x := R(w', 63, tr);
    assert tr.ks[63] == tr.ks[56..64][7];
    E, A := P(B, C, D, E, F, G, H, A, x, 0xC67178F2, tr, 63);
    next := Regs(A, B, C, D, E, F, G, H);
  }

  /** The trace of the reference algorithm on one block. */
  ghost function TraceOf(r: Regs, m: Block): (tr: Trace)
    ensures IsTrace(tr)
    ensures tr.regs[0] == r && tr.regs[64] == Rounds(r, m, 64)
    ensures forall t :: 0 <= t < 16 ==> tr.ws[t] == Schedule(m, t)
    ensures forall t {:trigger K(t)} :: 0 <= t < 64 ==> tr.ks[t] == K(t)
  {
    Trace(seq(65, t requires 0 <= t <= 64 => Rounds(r, m, t)),
          seq(64, t requires 0 <= t < 64 => K(t)),
          seq(64, t requires 0 <= t < 64 => Schedule(m, t)))
  }

  lemma ConstantRows(ks: seq<Word>, row: nat)
    requires |ks| == 64 && row < 8 && forall t {:trigger K(t)} :: 0 <= t < 64 ==> ks[t] == K(t)
    ensures HasRow(ks, row)
  {
    forall i | 0 <= i < 8 ensures ks[8 * row + i] == KRow(row)[i] {
      assert (8 * row + i) / 8 == row && (8 * row + i) % 8 == i;
      assert K(8 * row + i) == KRow(row)[i];
    }
  }

  /** All 64 rounds of `sha256_process`, from the loaded registers to the values added to the state. */
  method AllRounds(r: Regs, first16: seq<Word>, ghost m: Block) returns (r': Regs)
    requires |first16| == 16 && forall t :: 0 <= t < 16 ==> first16[t] == Schedule(m, t)
    ensures r' == Rounds(r, m, 64)
  {
    ghost var tr := TraceOf(r, m);
    forall row: nat | row < 8 ensures HasRow(tr.ks, row) { ConstantRows(tr.ks, row); }
    var w := first16 + seq(48, _ => 0);
    r' := Rounds0To7(r, w, tr);
    r' := Rounds8To15(r', w, tr);
    r', w := Rounds16To23(r', w, tr);
    r', w := Rounds24To31(r', w, tr);
    r', w := Rounds32To39(r', w, tr);
    r', w := Rounds40To47(r', w, tr);
    r', w := Rounds48To55(r', w, tr);
    r', w := Rounds56To63(r', w, tr);
  }
}
