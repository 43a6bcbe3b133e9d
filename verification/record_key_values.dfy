/**
 * Known values of the record key: the finalizer on 0, and the first two keys. With
 * the inverses in `RecordKey` they fix the seed, the shifts and the factors.
 */
module KnownKeys {
  import opened Words
  import opened RecordKey

  // ----- exclusive-or byte by byte -----

  /** The bits of two numbers and their exclusive-or. */
  datatype Bitwise = Bitwise(a: Bits, b: Bits) {
    ghost predicate Gives(x: nat, y: nat, z: nat, n: nat) {
      |a| == |b| == n && FromBits(a) == x && FromBits(b) == y && FromBits(XorBits(a, b)) == z
    }
  }

  lemma XorOfWords(w: Bitwise, x: Word, y: Word, z: nat, n: nat)
    requires w.Gives(x, y, z, n) && n == WIDTH
    ensures Xor(x, y) == z
  {
    ToFromBits(w.a);
    ToFromBits(w.b);
  }

  lemma {:induction false} FromZeros(b: Bits)
    requires forall i :: 0 <= i < |b| ==> !b[i]
    ensures FromBits(b) == 0
  {
    if b != [] {
      FromZeros(b[1..]);
    }
  }

  lemma WithZero(x: nat, n: nat) returns (w: Bitwise)
    requires x < Pow2(n)
    ensures w.Gives(x, 0, x, n)
  {
    w := Bitwise(ToBits(x, n), seq(n, _ => false));
    FromToBits(x, n);
    FromZeros(w.b);
    assert XorBits(w.a, w.b) == w.a;
  }

  function B(p: bool): nat {
    if p then 1 else 0
  }

  lemma OneBit(w: Bitwise, x: nat, y: nat, z: nat, n: nat, p: bool, q: bool) returns (w': Bitwise)
    requires w.Gives(x, y, z, n)
    ensures w'.Gives(2 * x + B(p), 2 * y + B(q), 2 * z + B(p != q), n + 1)
  {
    w' := Bitwise([p] + w.a, [q] + w.b);
    assert w'.a[1..] == w.a && w'.b[1..] == w.b && XorBits(w'.a, w'.b)[1..] == XorBits(w.a, w.b);
  }

  lemma TwoBits(w: Bitwise, x: nat, y: nat, z: nat, n: nat, p1: bool, q1: bool, p0: bool, q0: bool)
    returns (w': Bitwise)
    requires w.Gives(x, y, z, n)
    ensures w'.Gives(4 * x + 2 * B(p1) + B(p0), 4 * y + 2 * B(q1) + B(q0), 4 * z + 2 * B(p1 != q1) + B(p0 != q0), n + 2)
  {
    w' := OneBit(w, x, y, z, n, p1, q1);
    w' := OneBit(w', 2 * x + B(p1), 2 * y + B(q1), 2 * z + B(p1 != q1), n + 1, p0, q0);
  }

  lemma FourBits(w: Bitwise, x: nat, y: nat, z: nat, n: nat, p3: bool, q3: bool, p2: bool, q2: bool,
                 p1: bool, q1: bool, p0: bool, q0: bool, p: nat, q: nat, r: nat)
    returns (w': Bitwise)
    requires w.Gives(x, y, z, n)
    requires p == Four(p3, p2, p1, p0) && q == Four(q3, q2, q1, q0)
    requires r == Four(p3 != q3, p2 != q2, p1 != q1, p0 != q0)
    ensures w'.Gives(16 * x + p, 16 * y + q, 16 * z + r, n + 4)
  {
    w' := TwoBits(w, x, y, z, n, p3, q3, p2, q2);
    w' := TwoBits(w', 4 * x + 2 * B(p3) + B(p2), 4 * y + 2 * B(q3) + B(q2), 4 * z + 2 * B(p3 != q3) + B(p2 != q2),
                  n + 2, p1, q1, p0, q0);
  }

  /** The number with these bits. */
  function Four(p3: bool, p2: bool, p1: bool, p0: bool): nat {
    8 * B(p3) + 4 * B(p2) + 2 * B(p1) + B(p0)
  }

  function Upper(a: bv8): nat {
    Four(a & 128 != 0, a & 64 != 0, a & 32 != 0, a & 16 != 0)
  }

  function Lower(a: bv8): nat {
    Four(a & 8 != 0, a & 4 != 0, a & 2 != 0, a & 1 != 0)
  }

  lemma ByteBits(a: bv8)
    ensures a as nat == 16 * Upper(a) + Lower(a)
  {
  }

  lemma UpperBits(a: bv8, b: bv8)
    returns (p3: bool, q3: bool, p2: bool, q2: bool, p1: bool, q1: bool, p0: bool, q0: bool)
    ensures Upper(a) == Four(p3, p2, p1, p0) && Upper(b) == Four(q3, q2, q1, q0)
    ensures Upper(a ^ b) == Four(p3 != q3, p2 != q2, p1 != q1, p0 != q0)
  {
    p3, p2, p1, p0 := a & 128 != 0, a & 64 != 0, a & 32 != 0, a & 16 != 0;
    q3, q2, q1, q0 := b & 128 != 0, b & 64 != 0, b & 32 != 0, b & 16 != 0;
  }

  lemma LowerBits(a: bv8, b: bv8)
    returns (p3: bool, q3: bool, p2: bool, q2: bool, p1: bool, q1: bool, p0: bool, q0: bool)
    ensures Lower(a) == Four(p3, p2, p1, p0) && Lower(b) == Four(q3, q2, q1, q0)
    ensures Lower(a ^ b) == Four(p3 != q3, p2 != q2, p1 != q1, p0 != q0)
  {
    p3, p2, p1, p0 := a & 8 != 0, a & 4 != 0, a & 2 != 0, a & 1 != 0;
    q3, q2, q1, q0 := b & 8 != 0, b & 4 != 0, b & 2 != 0, b & 1 != 0;
  }

  lemma EightBits(w: Bitwise, x: nat, y: nat, z: nat, n: nat, a: nat, b: nat, c: nat, a': nat, b': nat, c': nat,
                  p7: bool, q7: bool, p6: bool, q6: bool, p5: bool, q5: bool, p4: bool, q4: bool,
                  p3: bool, q3: bool, p2: bool, q2: bool, p1: bool, q1: bool, p0: bool, q0: bool)
    returns (w': Bitwise)
    requires w.Gives(x, y, z, n)
    requires a == Four(p7, p6, p5, p4) && b == Four(q7, q6, q5, q4)
    requires c == Four(p7 != q7, p6 != q6, p5 != q5, p4 != q4)
    requires a' == Four(p3, p2, p1, p0) && b' == Four(q3, q2, q1, q0)
    requires c' == Four(p3 != q3, p2 != q2, p1 != q1, p0 != q0)
    ensures w'.Gives(256 * x + 16 * a + a', 256 * y + 16 * b + b', 256 * z + 16 * c + c', n + 8)
  {
    w' := FourBits(w, x, y, z, n, p7, q7, p6, q6, p5, q5, p4, q4, a, b, c);
    w' := FourBits(w', 16 * x + a, 16 * y + b, 16 * z + c, n + 4, p3, q3, p2, q2, p1, q1, p0, q0, a', b', c');
  }

  /** One more byte of each number. */
  lemma Byte(w: Bitwise, x: nat, y: nat, z: nat, n: nat, a: bv8, b: bv8) returns (w': Bitwise)
    requires w.Gives(x, y, z, n)
    ensures w'.Gives(256 * x + a as nat, 256 * y + b as nat, 256 * z + (a ^ b) as nat, n + 8)
  {
    ByteBits(a);
    ByteBits(b);
    ByteBits(a ^ b);
    var p7, q7, p6, q6, p5, q5, p4, q4 := UpperBits(a, b);
    var p3, q3, p2, q2, p1, q1, p0, q0 := LowerBits(a, b);
    w' := EightBits(w, x, y, z, n, Upper(a), Upper(b), Upper(a ^ b), Lower(a), Lower(b), Lower(a ^ b),
                    p7, q7, p6, q6, p5, q5, p4, q4, p3, q3, p2, q2, p1, q1, p0, q0);
  }

  // ----- right shift by division -----

  /** A right shift by its quotient and remainder. */
  lemma {:induction false} ShrByQuotient(x: nat, k: nat, quotient: nat, rest: nat)
    requires x == quotient * Pow2(k) + rest && rest < Pow2(k)
    ensures Shr(x, k) == quotient
  {
    if k > 0 {
      assert x == 2 * (quotient * Pow2(k - 1)) + rest;
      ShrByQuotient(x / 2, k - 1, quotient, rest / 2);
    }
  }

  lemma Powers(k: nat)
    requires k == 24 || k == 27 || k == 30 || k == 31
    ensures Pow2(k) == if k == 24 then 0x100_0000 else if k == 27 then 0x800_0000
                       else if k == 30 then 0x4000_0000 else 0x8000_0000
  {
    assert Pow2(8) == 256;
    Doubling(8, 8);
    Doubling(8, 16);
    Doubling(24, 3);
    Doubling(27, 3);
    Doubling(30, 1);
  }

  /** The start of a byte by byte exclusive-or with a word below 2^40. */
  lemma HighPart(x: nat, n: nat) returns (w: Bitwise)
    requires x < 0x100_0000 && n == 24
    ensures w.Gives(x, 0, x, n)
  {
    Powers(n);
    w := WithZero(x, n);
  }

  /** `x ^ (x >> k)` from the shifted word and the exclusive-or. */
  lemma Mixes(w: Bitwise, x: Word, k: nat, power: nat, shifted: Word, rest: nat, mixed: nat, n: nat)
    requires power == Pow2(k) && x == shifted * power + rest && rest < power
    requires w.Gives(x, shifted, mixed, n) && n == WIDTH
    ensures Xor(x, Shr(x, k)) == mixed
  {
    ShrByQuotient(x, k, shifted, rest);
    XorOfWords(w, x, shifted, mixed, n);
  }

  /** The stages of the finalizer, given what each of them makes of its word. */
  lemma Stages(value: Word, a: Word, b: Word, c: Word, key: Word)
    requires a == WrappingAdd(value, GOLDEN) && b == Round(a, 30, FIRST) && c == Round(b, 27, SECOND)
    requires Xor(c, Shr(c, 31)) == key
    ensures SplitMix64(value) == key
  {
  }

  lemma RoundOf(x: Word, k: nat, factor: Word, mixed: Word, product: Word)
    requires Xor(x, Shr(x, k)) == mixed && mixed * factor % WORD == product
    ensures Round(x, k, factor) == product
  {
  }

  // ----- the values -----

  lemma FinalZeroFirstMix(x: Word, k: nat, n: nat)
    requires x == 0x9E37_79B9_7F4A_7C15 && k == 30 && n == 24
    ensures Xor(x, Shr(x, k)) == 0x9E37_79BB_0797_9AF0
  {
    var w := HighPart(0x9E_3779, n);
    w := Byte(w, 0x9E_3779, 0x0, 0x9E_3779, n, 0xB9, 0x2);
    w := Byte(w, 0x9E37_79B9, 0x2, 0x9E37_79BB, n + 8, 0x7F, 0x78);
    w := Byte(w, 0x9E_3779_B97F, 0x278, 0x9E_3779_BB07, n + 16, 0x4A, 0xDD);
    w := Byte(w, 0x9E37_79B9_7F4A, 0x2_78DD, 0x9E37_79BB_0797, n + 24, 0x7C, 0xE6);
    w := Byte(w, 0x9E_3779_B97F_4A7C, 0x278_DDE6, 0x9E_3779_BB07_979A, n + 32, 0x15, 0xE5);
    Powers(k);
    Mixes(w, x, k, 0x4000_0000, 0x2_78DD_E6E5, 0x3F4A_7C15, 0x9E37_79BB_0797_9AF0, n + 40);
  }

  lemma FinalZeroFirstProduct(mixed: Word)
    requires mixed == 0x9E37_79BB_0797_9AF0
    ensures mixed * FIRST % WORD == 0x6F68_261B_57E7_A770
  {
  }

  lemma FinalZeroFirst(x: Word, k: nat, mixed: Word, product: Word)
    requires x == 0x9E37_79B9_7F4A_7C15 && k == 30 && mixed == 0x9E37_79BB_0797_9AF0 && product == 0x6F68_261B_57E7_A770
    ensures Round(x, k, FIRST) == product
  {
    FinalZeroFirstMix(x, k, 24);
    FinalZeroFirstProduct(mixed);
    RoundOf(x, k, FIRST, mixed, product);
  }

  lemma FinalZeroSecondMix(x: Word, k: nat, n: nat)
    requires x == 0x6F68_261B_57E7_A770 && k == 27 && n == 24
    ensures Xor(x, Shr(x, k)) == 0x6F68_2616_BAE3_641A
  {
    var w := HighPart(0x6F_6826, n);
    w := Byte(w, 0x6F_6826, 0x0, 0x6F_6826, n, 0x1B, 0xD);
    w := Byte(w, 0x6F68_261B, 0xD, 0x6F68_2616, n + 8, 0x57, 0xED);
    w := Byte(w, 0x6F_6826_1B57, 0xDED, 0x6F_6826_16BA, n + 16, 0xE7, 0x4);
    w := Byte(w, 0x6F68_261B_57E7, 0xD_ED04, 0x6F68_2616_BAE3, n + 24, 0xA7, 0xC3);
    w := Byte(w, 0x6F_6826_1B57_E7A7, 0xDED_04C3, 0x6F_6826_16BA_E364, n + 32, 0x70, 0x6A);
    Powers(k);
    Mixes(w, x, k, 0x800_0000, 0xD_ED04_C36A, 0x7E7_A770, 0x6F68_2616_BAE3_641A, n + 40);
  }

  lemma FinalZeroSecondProduct(mixed: Word)
    requires mixed == 0x6F68_2616_BAE3_641A
    ensures mixed * SECOND % WORD == 0xE220_A838_BF5C_9DDE
  {
  }

  lemma FinalZeroSecond(x: Word, k: nat, mixed: Word, product: Word)
    requires x == 0x6F68_261B_57E7_A770 && k == 27 && mixed == 0x6F68_2616_BAE3_641A && product == 0xE220_A838_BF5C_9DDE
    ensures Round(x, k, SECOND) == product
  {
    FinalZeroSecondMix(x, k, 24);
    FinalZeroSecondProduct(mixed);
    RoundOf(x, k, SECOND, mixed, product);
  }

  lemma FinalZeroThirdMix(x: Word, k: nat, n: nat)
    requires x == 0xE220_A838_BF5C_9DDE && k == 31 && n == 24
    ensures Xor(x, Shr(x, k)) == 0xE220_A839_7B1D_CDAF
  {
    var w := HighPart(0xE2_20A8, n);
    w := Byte(w, 0xE2_20A8, 0x0, 0xE2_20A8, n, 0x38, 0x1);
    w := Byte(w, 0xE220_A838, 0x1, 0xE220_A839, n + 8, 0xBF, 0xC4);
    w := Byte(w, 0xE2_20A8_38BF, 0x1C4, 0xE2_20A8_397B, n + 16, 0x5C, 0x41);
    w := Byte(w, 0xE220_A838_BF5C, 0x1_C441, 0xE220_A839_7B1D, n + 24, 0x9D, 0x50);
    w := Byte(w, 0xE2_20A8_38BF_5C9D, 0x1C4_4150, 0xE2_20A8_397B_1DCD, n + 32, 0xDE, 0x71);
    Powers(k);
    Mixes(w, x, k, 0x8000_0000, 0x1_C441_5071, 0x3F5C_9DDE, 0xE220_A839_7B1D_CDAF, n + 40);
  }

  lemma FinalZero(value: Word, a: Word, b: Word, c: Word)
    requires value == 0x0
    requires a == 0x9E37_79B9_7F4A_7C15 && b == 0x6F68_261B_57E7_A770 && c == 0xE220_A838_BF5C_9DDE
    ensures SplitMix64(value) == 0xE220_A839_7B1D_CDAF
  {
    FinalZeroFirst(a, 30, 0x9E37_79BB_0797_9AF0, b);
    FinalZeroSecond(b, 27, 0x6F68_2616_BAE3_641A, c);
    FinalZeroThirdMix(c, 31, 24);
    Stages(value, a, b, c, 0xE220_A839_7B1D_CDAF);
  }

  lemma FinalSeedFirstMix(x: Word, k: nat, n: nat)
    requires x == 0x9E37_79B9_D0C4_DB02 && k == 30 && n == 24
    ensures Xor(x, Shr(x, k)) == 0x9E37_79BB_A819_3DE5
  {
    var w := HighPart(0x9E_3779, n);
    w := Byte(w, 0x9E_3779, 0x0, 0x9E_3779, n, 0xB9, 0x2);
    w := Byte(w, 0x9E37_79B9, 0x2, 0x9E37_79BB, n + 8, 0xD0, 0x78);
    w := Byte(w, 0x9E_3779_B9D0, 0x278, 0x9E_3779_BBA8, n + 16, 0xC4, 0xDD);
    w := Byte(w, 0x9E37_79B9_D0C4, 0x2_78DD, 0x9E37_79BB_A819, n + 24, 0xDB, 0xE6);
    w := Byte(w, 0x9E_3779_B9D0_C4DB, 0x278_DDE6, 0x9E_3779_BBA8_193D, n + 32, 0x2, 0xE7);
    Powers(k);
    Mixes(w, x, k, 0x4000_0000, 0x2_78DD_E6E7, 0x10C4_DB02, 0x9E37_79BB_A819_3DE5, n + 40);
  }

  lemma FinalSeedFirstProduct(mixed: Word)
    requires mixed == 0x9E37_79BB_A819_3DE5
    ensures mixed * FIRST % WORD == 0x9C22_2CBC_3A8F_937D
  {
  }

  lemma FinalSeedFirst(x: Word, k: nat, mixed: Word, product: Word)
    requires x == 0x9E37_79B9_D0C4_DB02 && k == 30 && mixed == 0x9E37_79BB_A819_3DE5 && product == 0x9C22_2CBC_3A8F_937D
    ensures Round(x, k, FIRST) == product
  {
    FinalSeedFirstMix(x, k, 24);
    FinalSeedFirstProduct(mixed);
    RoundOf(x, k, FIRST, mixed, product);
  }

  lemma FinalSeedSecondMix(x: Word, k: nat, n: nat)
    requires x == 0x9C22_2CBC_3A8F_937D && k == 27 && n == 24
    ensures Xor(x, Shr(x, k)) == 0x9C22_2CAF_BECA_04FA
  {
    var w := HighPart(0x9C_222C, n);
    w := Byte(w, 0x9C_222C, 0x0, 0x9C_222C, n, 0xBC, 0x13);
    w := Byte(w, 0x9C22_2CBC, 0x13, 0x9C22_2CAF, n + 8, 0x3A, 0x84);
    w := Byte(w, 0x9C_222C_BC3A, 0x1384, 0x9C_222C_AFBE, n + 16, 0x8F, 0x45);
    w := Byte(w, 0x9C22_2CBC_3A8F, 0x13_8445, 0x9C22_2CAF_BECA, n + 24, 0x93, 0x97);
    w := Byte(w, 0x9C_222C_BC3A_8F93, 0x1384_4597, 0x9C_222C_AFBE_CA04, n + 32, 0x7D, 0x87);
    Powers(k);
    Mixes(w, x, k, 0x800_0000, 0x13_8445_9787, 0x28F_937D, 0x9C22_2CAF_BECA_04FA, n + 40);
  }

  lemma FinalSeedSecondProduct(mixed: Word)
    requires mixed == 0x9C22_2CAF_BECA_04FA
    ensures mixed * SECOND % WORD == 0xBD40_20A7_0FA1_2B7E
  {
  }

  lemma FinalSeedSecond(x: Word, k: nat, mixed: Word, product: Word)
    requires x == 0x9C22_2CBC_3A8F_937D && k == 27 && mixed == 0x9C22_2CAF_BECA_04FA && product == 0xBD40_20A7_0FA1_2B7E
    ensures Round(x, k, SECOND) == product
  {
    FinalSeedSecondMix(x, k, 24);
    FinalSeedSecondProduct(mixed);
    RoundOf(x, k, SECOND, mixed, product);
  }

  lemma FinalSeedThirdMix(x: Word, k: nat, n: nat)
    requires x == 0xBD40_20A7_0FA1_2B7E && k == 31 && n == 24
    ensures Xor(x, Shr(x, k)) == 0xBD40_20A6_7521_6A30
  {
    var w := HighPart(0xBD_4020, n);
    w := Byte(w, 0xBD_4020, 0x0, 0xBD_4020, n, 0xA7, 0x1);
    w := Byte(w, 0xBD40_20A7, 0x1, 0xBD40_20A6, n + 8, 0xF, 0x7A);
    w := Byte(w, 0xBD_4020_A70F, 0x17A, 0xBD_4020_A675, n + 16, 0xA1, 0x80);
    w := Byte(w, 0xBD40_20A7_0FA1, 0x1_7A80, 0xBD40_20A6_7521, n + 24, 0x2B, 0x41);
    w := Byte(w, 0xBD_4020_A70F_A12B, 0x17A_8041, 0xBD_4020_A675_216A, n + 32, 0x7E, 0x4E);
    Powers(k);
    Mixes(w, x, k, 0x8000_0000, 0x1_7A80_414E, 0xFA1_2B7E, 0xBD40_20A6_7521_6A30, n + 40);
  }

  lemma FinalSeed(value: Word, a: Word, b: Word, c: Word)
    requires value == 0x517A_5EED
    requires a == 0x9E37_79B9_D0C4_DB02 && b == 0x9C22_2CBC_3A8F_937D && c == 0xBD40_20A7_0FA1_2B7E
    ensures SplitMix64(value) == 0xBD40_20A6_7521_6A30
  {
    FinalSeedFirst(a, 30, 0x9E37_79BB_A819_3DE5, b);
    FinalSeedSecond(b, 27, 0x9C22_2CAF_BECA_04FA, c);
    FinalSeedThirdMix(c, 31, 24);
    Stages(value, a, b, c, 0xBD40_20A6_7521_6A30);
  }

  lemma FinalStepFirstMix(x: Word, k: nat, n: nat)
    requires x == 0x3C6E_F372_AD7A_9F0D && k == 30 && n == 24
    ensures Xor(x, Shr(x, k)) == 0x3C6E_F372_5CC1_52C7
  {
    var w := HighPart(0x3C_6EF3, n);
    w := Byte(w, 0x3C_6EF3, 0x0, 0x3C_6EF3, n, 0x72, 0x0);
    w := Byte(w, 0x3C6E_F372, 0x0, 0x3C6E_F372, n + 8, 0xAD, 0xF1);
    w := Byte(w, 0x3C_6EF3_72AD, 0xF1, 0x3C_6EF3_725C, n + 16, 0x7A, 0xBB);
    w := Byte(w, 0x3C6E_F372_AD7A, 0xF1BB, 0x3C6E_F372_5CC1, n + 24, 0x9F, 0xCD);
    w := Byte(w, 0x3C_6EF3_72AD_7A9F, 0xF1_BBCD, 0x3C_6EF3_725C_C152, n + 32, 0xD, 0xCA);
    Powers(k);
    Mixes(w, x, k, 0x4000_0000, 0xF1BB_CDCA, 0x2D7A_9F0D, 0x3C6E_F372_5CC1_52C7, n + 40);
  }

  lemma FinalStepFirstProduct(mixed: Word)
    requires mixed == 0x3C6E_F372_5CC1_52C7
    ensures mixed * FIRST % WORD == 0x49A0_6B94_73FC_D4CF
  {
  }

  lemma FinalStepFirst(x: Word, k: nat, mixed: Word, product: Word)
    requires x == 0x3C6E_F372_AD7A_9F0D && k == 30 && mixed == 0x3C6E_F372_5CC1_52C7 && product == 0x49A0_6B94_73FC_D4CF
    ensures Round(x, k, FIRST) == product
  {
    FinalStepFirstMix(x, k, 24);
    FinalStepFirstProduct(mixed);
    RoundOf(x, k, FIRST, mixed, product);
  }

  lemma FinalStepSecondMix(x: Word, k: nat, n: nat)
    requires x == 0x49A0_6B94_73FC_D4CF && k == 27 && n == 24
    ensures Xor(x, Shr(x, k)) == 0x49A0_6B9D_47F1_A641
  {
    var w := HighPart(0x49_A06B, n);
    w := Byte(w, 0x49_A06B, 0x0, 0x49_A06B, n, 0x94, 0x9);
    w := Byte(w, 0x49A0_6B94, 0x9, 0x49A0_6B9D, n + 8, 0x73, 0x34);
    w := Byte(w, 0x49_A06B_9473, 0x934, 0x49_A06B_9D47, n + 16, 0xFC, 0xD);
    w := Byte(w, 0x49A0_6B94_73FC, 0x9_340D, 0x49A0_6B9D_47F1, n + 24, 0xD4, 0x72);
    w := Byte(w, 0x49_A06B_9473_FCD4, 0x934_0D72, 0x49_A06B_9D47_F1A6, n + 32, 0xCF, 0x8E);
    Powers(k);
    Mixes(w, x, k, 0x800_0000, 0x9_340D_728E, 0x3FC_D4CF, 0x49A0_6B9D_47F1_A641, n + 40);
  }

  lemma FinalStepSecondProduct(mixed: Word)
    requires mixed == 0x49A0_6B9D_47F1_A641
    ensures mixed * SECOND % WORD == 0xA196_EA3A_BC4E_EEAB
  {
  }

  lemma FinalStepSecond(x: Word, k: nat, mixed: Word, product: Word)
    requires x == 0x49A0_6B94_73FC_D4CF && k == 27 && mixed == 0x49A0_6B9D_47F1_A641 && product == 0xA196_EA3A_BC4E_EEAB
    ensures Round(x, k, SECOND) == product
  {
    FinalStepSecondMix(x, k, 24);
    FinalStepSecondProduct(mixed);
    RoundOf(x, k, SECOND, mixed, product);
  }

  lemma FinalStepThirdMix(x: Word, k: nat, n: nat)
    requires x == 0xA196_EA3A_BC4E_EEAB && k == 31 && n == 24
    ensures Xor(x, Shr(x, k)) == 0xA196_EA3B_FF63_3ADE
  {
    var w := HighPart(0xA1_96EA, n);
    w := Byte(w, 0xA1_96EA, 0x0, 0xA1_96EA, n, 0x3A, 0x1);
    w := Byte(w, 0xA196_EA3A, 0x1, 0xA196_EA3B, n + 8, 0xBC, 0x43);
    w := Byte(w, 0xA1_96EA_3ABC, 0x143, 0xA1_96EA_3BFF, n + 16, 0x4E, 0x2D);
    w := Byte(w, 0xA196_EA3A_BC4E, 0x1_432D, 0xA196_EA3B_FF63, n + 24, 0xEE, 0xD4);
    w := Byte(w, 0xA1_96EA_3ABC_4EEE, 0x143_2DD4, 0xA1_96EA_3BFF_633A, n + 32, 0xAB, 0x75);
    Powers(k);
    Mixes(w, x, k, 0x8000_0000, 0x1_432D_D475, 0x3C4E_EEAB, 0xA196_EA3B_FF63_3ADE, n + 40);
  }

  lemma FinalStep(value: Word, a: Word, b: Word, c: Word)
    requires value == 0x9E37_79B9_2E30_22F8
    requires a == 0x3C6E_F372_AD7A_9F0D && b == 0x49A0_6B94_73FC_D4CF && c == 0xA196_EA3A_BC4E_EEAB
    ensures SplitMix64(value) == 0xA196_EA3B_FF63_3ADE
  {
    FinalStepFirst(a, 30, 0x3C6E_F372_5CC1_52C7, b);
    FinalStepSecond(b, 27, 0x49A0_6B9D_47F1_A641, c);
    FinalStepThirdMix(c, 31, 24);
    Stages(value, a, b, c, 0xA196_EA3B_FF63_3ADE);
  }

  lemma SeedZero(i: Word, n: nat)
    requires i == 0 && n == 24
    ensures Xor(SEED, WrappingMul(i, GOLDEN)) == 0x517A_5EED
  {
    Powers(n);
    var word: nat := WIDTH;
    WordBound();
    var w := WithZero(SEED, word);
    XorOfWords(w, SEED, 0, SEED, word);
  }

  lemma SeedBytes(n: nat) returns (w: Bitwise)
    requires n == 24
    ensures w.Gives(GOLDEN, SEED, 0x9E37_79B9_2E30_22F8, n + 40)
  {
    w := HighPart(0x9E_3779, n);
    w := Byte(w, 0x9E_3779, 0x0, 0x9E_3779, n, 0xB9, 0x0);
    w := Byte(w, 0x9E37_79B9, 0x0, 0x9E37_79B9, n + 8, 0x7F, 0x51);
    w := Byte(w, 0x9E_3779_B97F, 0x51, 0x9E_3779_B92E, n + 16, 0x4A, 0x7A);
    w := Byte(w, 0x9E37_79B9_7F4A, 0x517A, 0x9E37_79B9_2E30, n + 24, 0x7C, 0x5E);
    w := Byte(w, 0x9E_3779_B97F_4A7C, 0x51_7A5E, 0x9E_3779_B92E_3022, n + 32, 0x15, 0xED);
  }

  lemma SeedOne(i: Word, n: nat)
    requires i == 1 && n == 24
    ensures Xor(SEED, WrappingMul(i, GOLDEN)) == 0x9E37_79B9_2E30_22F8
  {
    var w := SeedBytes(n);
    XorCommutes(SEED, WrappingMul(i, GOLDEN));
    XorOfWords(w, WrappingMul(i, GOLDEN), SEED, 0x9E37_79B9_2E30_22F8, n + 40);
  }

  /**
   * The published first output of SplitMix64 for seed 0, and the keys of the first
   * two records.
   */
  lemma KnownValues(i: Word)
    ensures i == 0 ==> SplitMix64(i) == 0xE220_A839_7B1D_CDAF
    ensures i == 0 ==> Key(i) == 0xBD40_20A6_7521_6A30
    ensures i == 1 ==> Key(i) == 0xA196_EA3B_FF63_3ADE
  {
    if i == 0 {
      FinalZero(i, 0x9E37_79B9_7F4A_7C15, 0x6F68_261B_57E7_A770, 0xE220_A838_BF5C_9DDE);
      SeedZero(i, 24);
      FinalSeed(Xor(SEED, WrappingMul(i, GOLDEN)), 0x9E37_79B9_D0C4_DB02, 0x9C22_2CBC_3A8F_937D, 0xBD40_20A7_0FA1_2B7E);
    } else if i == 1 {
      SeedOne(i, 24);
      FinalStep(Xor(SEED, WrappingMul(i, GOLDEN)), 0x3C6E_F372_AD7A_9F0D, 0x49A0_6B94_73FC_D4CF, 0xA196_EA3A_BC4E_EEAB);
    }
  }
}
