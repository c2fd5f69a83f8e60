/** Where the constants of `Sha256Spec` come from: they are the first 32 fractional bits of roots of prime numbers. */
module Sha256Constants {
  import opened Common
  import opened Sha256Spec

  /** The prime numbers, eight to a row. */
  function PrimeRow(row: nat): (ps: seq<nat>)
    requires row < 8
    ensures |ps| == 8
  {
    match row
    case 0 => [2, 3, 5, 7, 11, 13, 17, 19]
    case 1 => [23, 29, 31, 37, 41, 43, 47, 53]
    case 2 => [59, 61, 67, 71, 73, 79, 83, 89]
    case 3 => [97, 101, 103, 107, 109, 113, 127, 131]
    case 4 => [137, 139, 149, 151, 157, 163, 167, 173]
    case 5 => [179, 181, 191, 193, 197, 199, 211, 223]
    case 6 => [227, 229, 233, 239, 241, 251, 257, 263]
    case _ => [269, 271, 277, 281, 283, 293, 307, 311]
  }

  /** Their cube roots, times 2^32 and rounded down. */
  function RootRow(row: nat): (cs: seq<nat>)
    requires row < 8
    ensures |cs| == 8
  {
    match row
    case 0 => [0x1_428A2F98, 0x1_71374491, 0x1_B5C0FBCF, 0x1_E9B5DBA5,
               0x2_3956C25B, 0x2_59F111F1, 0x2_923F82A4, 0x2_AB1C5ED5]
    case 1 => [0x2_D807AA98, 0x3_12835B01, 0x3_243185BE, 0x3_550C7DC3,
               0x3_72BE5D74, 0x3_80DEB1FE, 0x3_9BDC06A7, 0x3_C19BF174]
    case 2 => [0x3_E49B69C1, 0x3_EFBE4786, 0x4_0FC19DC6, 0x4_240CA1CC,
               0x4_2DE92C6F, 0x4_4A7484AA, 0x4_5CB0A9DC, 0x4_76F988DA]
    case 3 => [0x4_983E5152, 0x4_A831C66D, 0x4_B00327C8, 0x4_BF597FC7,
               0x4_C6E00BF3, 0x4_D5A79147, 0x5_06CA6351, 0x5_14292967]
    case 4 => [0x5_27B70A85, 0x5_2E1B2138, 0x5_4D2C6DFC, 0x5_53380D13,
               0x5_650A7354, 0x5_766A0ABB, 0x5_81C2C92E, 0x5_92722C85]
    case 5 => [0x5_A2BFE8A1, 0x5_A81A664B, 0x5_C24B8B70, 0x5_C76C51A3,
               0x5_D192E819, 0x5_D6990624, 0x5_F40E3585, 0x6_106AA070]
    case 6 => [0x6_19A4C116, 0x6_1E376C08, 0x6_2748774C, 0x6_34B0BCB5,
               0x6_391C0CB3, 0x6_4ED8AA4A, 0x6_5B9CCA4F, 0x6_682E6FF3]
    case _ => [0x6_748F82EE, 0x6_78A5636F, 0x6_84C87814, 0x6_8CC70208,
               0x6_90BEFFFA, 0x6_A4506CEB, 0x6_BEF9A3F7, 0x6_C67178F2]
  }

  function Prime(t: nat): nat
    requires t < 64
  {
    PrimeRow(t / 8)[t % 8]
  }

  /** The cube root of p, rounded down after 32 fractional bits, is c / 2^32, and k is its fractional part. */
  predicate IsCubeRoot(k: Word, c: nat, p: nat) {
    k as int == c % 0x1_0000_0000 && c * c * c <= p * 0x1_0000_0000_0000_0000_0000_0000 < (c + 1) * (c + 1) * (c + 1)
  }

  predicate IsSquareRoot(k: Word, c: nat, p: nat) {
    k as int == c % 0x1_0000_0000 && c * c <= p * 0x1_0000_0000_0000_0000 < (c + 1) * (c + 1)
  }

  lemma Row0(i: nat)
    requires i < 8
    ensures IsCubeRoot(KRow(0)[i], RootRow(0)[i], PrimeRow(0)[i])
  {
    assert IsCubeRoot(0x428A2F98, 0x1_428A2F98, 2) && IsCubeRoot(0x71374491, 0x1_71374491, 3);
    assert IsCubeRoot(0xB5C0FBCF, 0x1_B5C0FBCF, 5) && IsCubeRoot(0xE9B5DBA5, 0x1_E9B5DBA5, 7);
    assert IsCubeRoot(0x3956C25B, 0x2_3956C25B, 11) && IsCubeRoot(0x59F111F1, 0x2_59F111F1, 13);
    assert IsCubeRoot(0x923F82A4, 0x2_923F82A4, 17) && IsCubeRoot(0xAB1C5ED5, 0x2_AB1C5ED5, 19);
    hide IsCubeRoot;
  }

  lemma Row1(i: nat)
    requires i < 8
    ensures IsCubeRoot(KRow(1)[i], RootRow(1)[i], PrimeRow(1)[i])
  {
    assert IsCubeRoot(0xD807AA98, 0x2_D807AA98, 23) && IsCubeRoot(0x12835B01, 0x3_12835B01, 29);
    assert IsCubeRoot(0x243185BE, 0x3_243185BE, 31) && IsCubeRoot(0x550C7DC3, 0x3_550C7DC3, 37);
    assert IsCubeRoot(0x72BE5D74, 0x3_72BE5D74, 41) && IsCubeRoot(0x80DEB1FE, 0x3_80DEB1FE, 43);
    assert IsCubeRoot(0x9BDC06A7, 0x3_9BDC06A7, 47) && IsCubeRoot(0xC19BF174, 0x3_C19BF174, 53);
    hide IsCubeRoot;
  }

  lemma Row2(i: nat)
    requires i < 8
    ensures IsCubeRoot(KRow(2)[i], RootRow(2)[i], PrimeRow(2)[i])
  {
    assert IsCubeRoot(0xE49B69C1, 0x3_E49B69C1, 59) && IsCubeRoot(0xEFBE4786, 0x3_EFBE4786, 61);
    assert IsCubeRoot(0x0FC19DC6, 0x4_0FC19DC6, 67) && IsCubeRoot(0x240CA1CC, 0x4_240CA1CC, 71);
    assert IsCubeRoot(0x2DE92C6F, 0x4_2DE92C6F, 73) && IsCubeRoot(0x4A7484AA, 0x4_4A7484AA, 79);
    assert IsCubeRoot(0x5CB0A9DC, 0x4_5CB0A9DC, 83) && IsCubeRoot(0x76F988DA, 0x4_76F988DA, 89);
    hide IsCubeRoot;
  }

  lemma Row3(i: nat)
    requires i < 8
    ensures IsCubeRoot(KRow(3)[i], RootRow(3)[i], PrimeRow(3)[i])
  {
    assert IsCubeRoot(0x983E5152, 0x4_983E5152, 97) && IsCubeRoot(0xA831C66D, 0x4_A831C66D, 101);
    assert IsCubeRoot(0xB00327C8, 0x4_B00327C8, 103) && IsCubeRoot(0xBF597FC7, 0x4_BF597FC7, 107);
    assert IsCubeRoot(0xC6E00BF3, 0x4_C6E00BF3, 109) && IsCubeRoot(0xD5A79147, 0x4_D5A79147, 113);
    assert IsCubeRoot(0x06CA6351, 0x5_06CA6351, 127) && IsCubeRoot(0x14292967, 0x5_14292967, 131);
    hide IsCubeRoot;
  }

  lemma Row4(i: nat)
    requires i < 8
    ensures IsCubeRoot(KRow(4)[i], RootRow(4)[i], PrimeRow(4)[i])
  {
    assert IsCubeRoot(0x27B70A85, 0x5_27B70A85, 137) && IsCubeRoot(0x2E1B2138, 0x5_2E1B2138, 139);
    assert IsCubeRoot(0x4D2C6DFC, 0x5_4D2C6DFC, 149) && IsCubeRoot(0x53380D13, 0x5_53380D13, 151);
    assert IsCubeRoot(0x650A7354, 0x5_650A7354, 157) && IsCubeRoot(0x766A0ABB, 0x5_766A0ABB, 163);
    assert IsCubeRoot(0x81C2C92E, 0x5_81C2C92E, 167) && IsCubeRoot(0x92722C85, 0x5_92722C85, 173);
    hide IsCubeRoot;
  }

  lemma Row5(i: nat)
    requires i < 8
    ensures IsCubeRoot(KRow(5)[i], RootRow(5)[i], PrimeRow(5)[i])
  {
    assert IsCubeRoot(0xA2BFE8A1, 0x5_A2BFE8A1, 179) && IsCubeRoot(0xA81A664B, 0x5_A81A664B, 181);
    assert IsCubeRoot(0xC24B8B70, 0x5_C24B8B70, 191) && IsCubeRoot(0xC76C51A3, 0x5_C76C51A3, 193);
    assert IsCubeRoot(0xD192E819, 0x5_D192E819, 197) && IsCubeRoot(0xD6990624, 0x5_D6990624, 199);
    assert IsCubeRoot(0xF40E3585, 0x5_F40E3585, 211) && IsCubeRoot(0x106AA070, 0x6_106AA070, 223);
    hide IsCubeRoot;
  }

  lemma Row6(i: nat)
    requires i < 8
    ensures IsCubeRoot(KRow(6)[i], RootRow(6)[i], PrimeRow(6)[i])
  {
    assert IsCubeRoot(0x19A4C116, 0x6_19A4C116, 227) && IsCubeRoot(0x1E376C08, 0x6_1E376C08, 229);
    assert IsCubeRoot(0x2748774C, 0x6_2748774C, 233) && IsCubeRoot(0x34B0BCB5, 0x6_34B0BCB5, 239);
    assert IsCubeRoot(0x391C0CB3, 0x6_391C0CB3, 241) && IsCubeRoot(0x4ED8AA4A, 0x6_4ED8AA4A, 251);
    assert IsCubeRoot(0x5B9CCA4F, 0x6_5B9CCA4F, 257) && IsCubeRoot(0x682E6FF3, 0x6_682E6FF3, 263);
    hide IsCubeRoot;
  }

  lemma Row7(i: nat)
    requires i < 8
    ensures IsCubeRoot(KRow(7)[i], RootRow(7)[i], PrimeRow(7)[i])
  {
    assert IsCubeRoot(0x748F82EE, 0x6_748F82EE, 269) && IsCubeRoot(0x78A5636F, 0x6_78A5636F, 271);
    assert IsCubeRoot(0x84C87814, 0x6_84C87814, 277) && IsCubeRoot(0x8CC70208, 0x6_8CC70208, 281);
    assert IsCubeRoot(0x90BEFFFA, 0x6_90BEFFFA, 283) && IsCubeRoot(0xA4506CEB, 0x6_A4506CEB, 293);
    assert IsCubeRoot(0xBEF9A3F7, 0x6_BEF9A3F7, 307) && IsCubeRoot(0xC67178F2, 0x6_C67178F2, 311);
    hide IsCubeRoot;
  }

  lemma RowIsRight(row: nat, i: nat)
    requires row < 8 && i < 8
    ensures IsCubeRoot(KRow(row)[i], RootRow(row)[i], PrimeRow(row)[i])
  {
    hide IsCubeRoot, KRow, RootRow, PrimeRow;
    match row {
      case 0 => Row0(i);
      case 1 => Row1(i);
      case 2 => Row2(i);
      case 3 => Row3(i);
      case 4 => Row4(i);
      case 5 => Row5(i);
      case 6 => Row6(i);
      case _ => Row7(i);
    }
  }

  /** Section 4.2.2: the round constants are the fractional parts of the cube roots of the first 64 primes. */
  lemma ConstantsAreCubeRoots(t: nat) returns (c: nat)
    requires t < 64
    ensures K(t) as int == c % 0x1_0000_0000
    ensures c * c * c <= Prime(t) * 0x1_0000_0000_0000_0000_0000_0000 < (c + 1) * (c + 1) * (c + 1)
  {
    c := RootOf(t);
    hide K, Prime;
  }

  lemma RootOf(t: nat) returns (c: nat)
    requires t < 64
    ensures IsCubeRoot(K(t), c, Prime(t))
  {
    hide KRow, RootRow, PrimeRow, IsCubeRoot;
    RowIsRight(t / 8, t % 8);
    c := RootRow(t / 8)[t % 8];
  }

  /** Section 5.3.2: the initial hash value consists of the fractional parts of the square roots of the first eight. */
  lemma InitialHashIsSquareRoots()
    ensures IsSquareRoot(H0.a, 0x1_6A09E667, 2) && IsSquareRoot(H0.b, 0x1_BB67AE85, 3)
    ensures IsSquareRoot(H0.c, 0x2_3C6EF372, 5) && IsSquareRoot(H0.d, 0x2_A54FF53A, 7)
    ensures IsSquareRoot(H0.e, 0x3_510E527F, 11) && IsSquareRoot(H0.f, 0x3_9B05688C, 13)
    ensures IsSquareRoot(H0.g, 0x4_1F83D9AB, 17) && IsSquareRoot(H0.h, 0x4_5BE0CD19, 19)
  {
  }
}
