/**
 * Deterministic record keys: a multiply, an xor and the SplitMix64 finalizer,
 * all on 64-bit words that wrap. Every stage has an explicit inverse stage.
 *
 * Words are integers below 2^64; exclusive-or and right shift are defined on
 * their bits, least significant first.
 */
module Words {
  const WORD: nat := 0x1_0000_0000_0000_0000
  const WIDTH: nat := 64

  type Word = x: int | 0 <= x < WORD
  type Bits = seq<bool>

  function Pow2(n: nat): (p: nat)
    ensures p > 0
  {
    if n == 0 then 1 else 2 * Pow2(n - 1)
  }

  function ToBits(x: nat, n: nat): (b: Bits)
    ensures |b| == n
  {
    if n == 0 then [] else [x % 2 == 1] + ToBits(x / 2, n - 1)
  }

  function FromBits(b: Bits): (x: nat)
    ensures x < Pow2(|b|)
  {
    if b == [] then 0 else (if b[0] then 1 else 0) + 2 * FromBits(b[1..])
  }

  lemma {:induction false} FromToBits(x: nat, n: nat)
    requires x < Pow2(n)
    ensures FromBits(ToBits(x, n)) == x
  {
    if n > 0 {
      FromToBits(x / 2, n - 1);
    }
  }

  lemma {:induction false} ToFromBits(b: Bits)
    ensures ToBits(FromBits(b), |b|) == b
  {
    if b != [] {
      ToFromBits(b[1..]);
      assert FromBits(b) / 2 == FromBits(b[1..]);
      assert b == [b[0]] + b[1..];
    }
  }

  lemma WordBound()
    ensures Pow2(WIDTH) == WORD
  {
    assert Pow2(8) == 256;
    Doubling(8, 8);
    Doubling(16, 16);
    Doubling(32, 32);
  }

  lemma {:induction false} Doubling(m: nat, n: nat)
    ensures Pow2(m + n) == Pow2(m) * Pow2(n)
  {
    if m > 0 {
      Doubling(m - 1, n);
      assert Pow2(m + n) == 2 * Pow2(m - 1 + n);
      assert Pow2(m) * Pow2(n) == 2 * (Pow2(m - 1) * Pow2(n));
    }
  }

  /** Bitwise exclusive-or of two equally long words. */
  function XorBits(a: Bits, b: Bits): (c: Bits)
    requires |a| == |b|
    ensures |c| == |a|
  {
    seq(|a|, i requires 0 <= i < |a| => a[i] != b[i])
  }

  function FromWordBits(b: Bits): Word
    requires |b| == WIDTH
  {
    WordBound();
    FromBits(b)
  }

  function Xor(x: Word, y: Word): Word {
    FromWordBits(XorBits(ToBits(x, WIDTH), ToBits(y, WIDTH)))
  }

  /** A logical right shift, one place at a time. */
  function Shr(x: nat, k: nat): (r: nat)
    ensures r <= x
  {
    if k == 0 then x else Shr(x / 2, k - 1)
  }

  function WrappingMul(x: Word, y: Word): Word {
    x * y % WORD
  }

  function WrappingAdd(x: Word, y: Word): Word {
    (x + y) % WORD
  }

  function WrappingSub(x: Word, y: Word): Word {
    (x - y) % WORD
  }

  /** The bits of a word that differ from the bit `k` places above them. */
  function XorShiftBits(b: Bits, k: nat): (c: Bits)
    ensures |c| == |b|
  {
    seq(|b|, i requires 0 <= i < |b| => b[i] != (i + k < |b| && b[i + k]))
  }

  lemma {:induction false} TopBitZero(x: nat, n: nat)
    requires x < Pow2(n)
    ensures ToBits(x, n + 1) == ToBits(x, n) + [false]
  {
    if n > 0 {
      TopBitZero(x / 2, n - 1);
    }
  }

  lemma HalfBit(x: nat, n: nat, i: nat)
    requires x < Pow2(n) && i < n
    ensures ToBits(x / 2, n)[i] == (i + 1 < n && ToBits(x, n)[i + 1])
  {
    TopBitZero(x / 2, n - 1);
    if i + 1 < n {
      NextBit(x, n, i);
    }
  }

  lemma NextBit(x: nat, n: nat, i: nat)
    requires i + 1 < n
    ensures ToBits(x, n)[i + 1] == ToBits(x / 2, n - 1)[i]
  {
  }

  /** Shifting right moves every bit `k` places down and brings zeros in at the top. */
  lemma {:induction false} ShrBit(x: nat, n: nat, k: nat, i: nat)
    requires x < Pow2(n) && i < n
    ensures ToBits(Shr(x, k), n)[i] == (i + k < n && ToBits(x, n)[i + k])
    decreases k
  {
    if k == 0 {
      assert Shr(x, k) == x;
    } else {
      var half := ShrOnce(x, n, k, i);
      ShrBit(half, n, k - 1, i);
    }
  }

  lemma ShrOnce(x: nat, n: nat, k: nat, i: nat) returns (half: nat)
    requires x < Pow2(n) && i < n && k > 0
    ensures half < Pow2(n) && Shr(x, k) == Shr(half, k - 1)
    ensures i + k - 1 < n ==> ToBits(half, n)[i + k - 1] == (i + k < n && ToBits(x, n)[i + k])
  {
    half := x / 2;
    if i + k - 1 < n {
      HalfBit(x, n, i + k - 1);
    }
  }

  /** `x ^ (x >> k)` on bits. */
  lemma XorShiftIsBitwise(x: Word, k: nat)
    ensures ToBits(Xor(x, Shr(x, k)), WIDTH) == XorShiftBits(ToBits(x, WIDTH), k)
  {
    WordBound();
    var b, c := ToBits(x, WIDTH), XorBits(ToBits(x, WIDTH), ToBits(Shr(x, k), WIDTH));
    ToFromBits(c);
    forall i | 0 <= i < WIDTH ensures c[i] == XorShiftBits(b, k)[i] {
      ShrBit(x, WIDTH, k, i);
    }
  }

  /** Recovers the word from the top bit down. */
  function UnXorShiftBits(c: Bits, k: nat): (b: Bits)
    ensures |b| == |c|
    decreases |c|
  {
    if c == [] || k == 0 then c
    else
      var rest := UnXorShiftBits(c[1..], k);
      [c[0] != (k - 1 < |rest| && rest[k - 1])] + rest
  }

  lemma {:induction false} UnXorShiftUndoes(b: Bits, k: nat)
    requires k > 0
    ensures UnXorShiftBits(XorShiftBits(b, k), k) == b
    decreases |b|
  {
    if b != [] {
      UnXorShiftUndoes(b[1..], k);
      assert XorShiftBits(b, k)[1..] == XorShiftBits(b[1..], k);
    }
  }

  function UnXorShift(y: Word, k: nat): Word {
    FromWordBits(UnXorShiftBits(ToBits(y, WIDTH), k))
  }

  lemma XorShiftUndone(x: Word, k: nat)
    requires k > 0
    ensures UnXorShift(Xor(x, Shr(x, k)), k) == x
  {
    WordBound();
    XorShiftIsBitwise(x, k);
    UnXorShiftUndoes(ToBits(x, WIDTH), k);
    FromToBits(x, WIDTH);
  }

  lemma XorUndone(x: Word, y: Word)
    ensures Xor(y, Xor(y, x)) == x
  {
    WordBound();
    var a, b := ToBits(x, WIDTH), ToBits(y, WIDTH);
    ToFromBits(XorBits(b, a));
    assert XorBits(b, XorBits(b, a)) == a;
    FromToBits(x, WIDTH);
  }

  lemma XorBitsOf(x: Word, y: Word)
    ensures ToBits(Xor(x, y), WIDTH) == XorBits(ToBits(x, WIDTH), ToBits(y, WIDTH))
  {
    ToFromBits(XorBits(ToBits(x, WIDTH), ToBits(y, WIDTH)));
  }

  lemma XorCommutes(x: Word, y: Word)
    ensures Xor(x, y) == Xor(y, x)
  {
    assert XorBits(ToBits(x, WIDTH), ToBits(y, WIDTH)) == XorBits(ToBits(y, WIDTH), ToBits(x, WIDTH));
  }

  lemma XorAssociates(x: Word, y: Word, z: Word)
    ensures Xor(Xor(x, y), z) == Xor(x, Xor(y, z))
  {
    var a, b, c := ToBits(x, WIDTH), ToBits(y, WIDTH), ToBits(z, WIDTH);
    XorBitsOf(x, y);
    XorBitsOf(y, z);
    assert XorBits(XorBits(a, b), c) == XorBits(a, XorBits(b, c));
  }

  /** A factor that has an inverse modulo 2^64 is undone by it. */
  lemma MulUndone(x: Word, a: Word, inverse: Word, laps: nat)
    requires a * inverse == 1 + laps * WORD
    ensures WrappingMul(WrappingMul(x, a), inverse) == x
  {
    var q, r := x * a / WORD, x * a % WORD;
    assert x * a == q * WORD + r;
    calc {
      r * inverse;
      (x * a - q * WORD) * inverse;
      { assert x * a * inverse == x * (a * inverse); assert q * WORD * inverse == (q * inverse) * WORD; }
      x * (1 + laps * WORD) - (q * inverse) * WORD;
      { assert x * (1 + laps * WORD) == x + (x * laps) * WORD; }
      x + (x * laps - q * inverse) * WORD;
    }
    WholeLaps(x, x * laps - q * inverse);
  }

  lemma AddUndone(x: Word, y: Word)
    ensures WrappingSub(WrappingAdd(x, y), y) == x
  {
  }

  lemma WholeLaps(x: Word, t: int)
    ensures (x + t * WORD) % WORD == x
  {
  }
}

module RecordKey {
  import opened Words

  const SEED: Word := 0x517a_5eed
  const GOLDEN: Word := 0x9E37_79B9_7F4A_7C15
  const FIRST: Word := 0xBF58_476D_1CE4_E5B9
  const SECOND: Word := 0x94D0_49BB_1331_11EB

  const GOLDEN_INVERSE: Word := 0xF1DE_83E1_9937_733D
  const FIRST_INVERSE: Word := 0x96DE_1B17_3F11_9089
  const SECOND_INVERSE: Word := 0x3196_42B2_D24D_8EC3

  /** One round of the finalizer. */
  function Round(x: Word, shift: nat, factor: Word): Word {
    WrappingMul(Xor(x, Shr(x, shift)), factor)
  }

  function SplitMix64(value: Word): Word {
    var a := WrappingAdd(value, GOLDEN);
    var b := Round(a, 30, FIRST);
    var c := Round(b, 27, SECOND);
    Xor(c, Shr(c, 31))
  }

  /** The key of a record, from its index. */
  function Key(index: Word): Word {
    SplitMix64(Xor(SEED, WrappingMul(index, GOLDEN)))
  }

  function UnSplitMix64(key: Word): Word {
    var c := UnXorShift(key, 31);
    var b := UnXorShift(WrappingMul(c, SECOND_INVERSE), 27);
    var a := UnXorShift(WrappingMul(b, FIRST_INVERSE), 30);
    WrappingSub(a, GOLDEN)
  }

  /** The record index a key was derived from. */
  function Index(key: Word): Word {
    WrappingMul(Xor(SEED, UnSplitMix64(key)), GOLDEN_INVERSE)
  }

  lemma RoundUndone(x: Word, shift: nat, factor: Word, inverse: Word, laps: nat)
    requires shift > 0 && factor * inverse == 1 + laps * WORD
    ensures UnXorShift(WrappingMul(Round(x, shift, factor), inverse), shift) == x
  {
    MulUndone(Xor(x, Shr(x, shift)), factor, inverse, laps);
    XorShiftUndone(x, shift);
  }

  lemma SplitMix64Undone(value: Word)
    ensures UnSplitMix64(SplitMix64(value)) == value
  {
    var a := WrappingAdd(value, GOLDEN);
    var b := Round(a, 30, FIRST);
    var c := Round(b, 27, SECOND);
    XorShiftUndone(c, 31);
    RoundUndone(b, 27, SECOND, SECOND_INVERSE, 0x1CD3_36ED_A85F_1453);
    RoundUndone(a, 30, FIRST, FIRST_INVERSE, 0x70C3_BCA7_8F27_F46C);
    AddUndone(value, GOLDEN);
  }

  /** Every key names its record: `Index` undoes `Key` on all 2^64 indices. */
  lemma IndexOfKey(index: Word)
    ensures Index(Key(index)) == index
  {
    var m := WrappingMul(index, GOLDEN);
    SplitMix64Undone(Xor(SEED, m));
    XorUndone(m, SEED);
    MulUndone(index, GOLDEN, GOLDEN_INVERSE, 0x957B_BF35_006E_D677);
  }

  /** Key derivation is injective, although the source only claims "injective-ish". */
  lemma KeyInjective(i: Word, j: Word)
    requires i != j
    ensures Key(i) != Key(j)
  {
    IndexOfKey(i);
    IndexOfKey(j);
  }
}
