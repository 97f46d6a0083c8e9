/** The splitmix64 generator and Lemire's bounded draw (pkg/rng/rng.go).

    A 64-bit word is a natural below 2^64. Addition and multiplication wrap
    explicitly; exclusive or and right shift are defined bit by bit. */
module Words {

  const TWO64: nat := 0x1_0000_0000_0000_0000

  type Word = x: nat | x < TWO64

  function Add(a: Word, b: Word): Word { (a + b) % TWO64 }

  function Mul(a: Word, b: Word): Word { a * b % TWO64 }

  function Pow2(k: nat): (p: nat)
    ensures p > 0
  {
    if k == 0 then 1 else 2 * Pow2(k - 1)
  }

  function Shr(a: nat, k: nat): (r: nat)
    ensures r <= a
  {
    if k == 0 then a else Shr(a / 2, k - 1)
  }

  function BitXor(x: nat, y: nat): nat { if x == y then 0 else 1 }

  function Xor(a: nat, b: nat): nat {
    if a == 0 && b == 0 then 0 else BitXor(a % 2, b % 2) + 2 * Xor(a / 2, b / 2)
  }

  lemma {:induction false} XorStep(a: nat, b: nat)
    ensures Xor(a, b) % 2 == BitXor(a % 2, b % 2)
    ensures Xor(a, b) / 2 == Xor(a / 2, b / 2)
  {}

  lemma {:induction false} XorZero(a: nat)
    ensures Xor(a, 0) == a == Xor(0, a)
  {
    if a != 0 { XorZero(a / 2); }
  }

  lemma {:induction false} XorCommutes(a: nat, b: nat)
    ensures Xor(a, b) == Xor(b, a)
  {
    if a != 0 || b != 0 { XorCommutes(a / 2, b / 2); }
  }

  lemma {:induction false} XorAssociates(a: nat, b: nat, c: nat)
    ensures Xor(Xor(a, b), c) == Xor(a, Xor(b, c))
    decreases a + b + c
  {
    if a != 0 || b != 0 || c != 0 {
      XorAssociates(a / 2, b / 2, c / 2);
      var p, q := Xor(a, b), Xor(b, c);
      XorStep(a, b);
      XorStep(b, c);
      assert Xor(p, c) == BitXor(p % 2, c % 2) + 2 * Xor(p / 2, c / 2);
      assert Xor(a, q) == BitXor(a % 2, q % 2) + 2 * Xor(a / 2, q / 2);
    }
  }

  lemma {:induction false} XorSelf(a: nat)
    ensures Xor(a, a) == 0
  {
    if a != 0 { XorSelf(a / 2); }
  }

  /** Exclusive or is its own inverse. */
  lemma XorCancels(a: nat, b: nat)
    ensures Xor(Xor(a, b), b) == a
    ensures Xor(a, Xor(a, b)) == b
  {
    XorAssociates(a, b, b);
    XorSelf(b);
    XorAssociates(a, a, b);
    XorSelf(a);
    XorZero(a);
    XorZero(b);
  }

  lemma XorInjective(a: nat, b: nat, c: nat)
    ensures Xor(a, b) == Xor(a, c) <==> b == c
  {}

  lemma AddInjective(x: Word, y: Word, c: Word)
    ensures Add(x, c) == Add(y, c) <==> x == y
  {}

  lemma {:induction false} XorBound(a: nat, b: nat, k: nat)
    requires a < Pow2(k) && b < Pow2(k)
    ensures Xor(a, b) < Pow2(k)
  {
    if k > 0 && (a != 0 || b != 0) { XorBound(a / 2, b / 2, k - 1); }
  }

  lemma {:induction false} XorShr(a: nat, b: nat, k: nat)
    ensures Shr(Xor(a, b), k) == Xor(Shr(a, k), Shr(b, k))
  {
    if k > 0 {
      XorStep(a, b);
      XorShr(a / 2, b / 2, k - 1);
    }
  }

  lemma {:induction false} ShrShr(a: nat, j: nat, k: nat)
    ensures Shr(Shr(a, j), k) == Shr(a, j + k)
  {
    if j > 0 { ShrShr(a / 2, j - 1, k); }
  }

  /** A right shift is a truncating division by a power of two. */
  lemma HalveThenDivide(a: nat, p: nat)
    requires p > 0
    ensures a / 2 / p == a / (2 * p)
  {
    var q, r := a / 2 / p, a / 2 % p;
    assert a / 2 == q * p + r;
    var r2 := 2 * r + a % 2;
    assert a == q * (2 * p) + r2 by {
      assert q * (2 * p) == 2 * (q * p);
    }
    DivModUnique(a, q, r2, 2 * p);
  }

  lemma {:induction false} ShrIsDivision(a: nat, k: nat)
    ensures Shr(a, k) == a / Pow2(k)
  {
    if k > 0 {
      ShrIsDivision(a / 2, k - 1);
      HalveThenDivide(a, Pow2(k - 1));
    }
  }

  lemma DivModUnique(x: int, q: int, r: int, n: int)
    requires n > 0 && x == q * n + r && 0 <= r < n
    ensures x / n == q && x % n == r
  {
    var d := x / n - q;
    assert x == (x / n) * n + x % n;
    assert d * n == r - x % n by { assert d * n == (x / n) * n - q * n; }
    MulMono(1, if d >= 1 then d else 1, n);
    MulMono(if d <= -1 then d else -1, -1, n);
  }

  lemma MulMono(a: int, b: int, n: int)
    requires a <= b && n >= 0
    ensures a * n <= b * n
  {}

  /** Multiplying by c and then by its inverse d is the identity. */
  lemma MulInverse(z: Word, c: Word, d: Word, e: nat)
    requires c * d == e * TWO64 + 1
    ensures Mul(Mul(z, c), d) == z
  {
    var q, r := z * c / TWO64, z * c % TWO64;
    assert z * c == q * TWO64 + r;
    assert z * c * d == (q * TWO64 + r) * d == q * d * TWO64 + r * d;
    assert z * c * d == z * (c * d) == z * e * TWO64 + z;
    DivModUnique(r * d, z * e - q * d, z, TWO64);
  }

  lemma PowDoubles(k: nat, p: nat)
    requires Pow2(k) == p
    ensures Pow2(2 * k) == p * p
  {
    PowSum(k, k);
  }

  lemma WordsHave64Bits()
    ensures Pow2(64) == TWO64
  {
    var k := 1;
    PowDoubles(k, 2);
    PowDoubles(2 * k, 4);
    PowDoubles(4 * k, 0x10);
    PowDoubles(8 * k, 0x100);
    PowDoubles(16 * k, 0x1_0000);
    PowDoubles(32 * k, 0x1_0000_0000);
  }

  lemma {:induction false} PowSum(j: nat, k: nat)
    ensures Pow2(j + k) == Pow2(j) * Pow2(k)
  {
    if j > 0 {
      PowSum(j - 1, k);
      assert Pow2(j + k) == 2 * Pow2(j - 1 + k);
    }
  }

  // ------------------------------------------------ xor-shift permutations

  function XorShift(z: Word, k: nat): (r: Word) {
    WordsHave64Bits();
    XorBound(z, Shr(z, k), 64);
    Xor(z, Shr(z, k))
  }

  /** Undoes XorShift for shifts of at least 22 bits: the third shift is empty. */
  function XorUnshift(z: Word, k: nat): (r: Word) {
    WordsHave64Bits();
    XorBound(z, Shr(z, k), 64);
    XorBound(Xor(z, Shr(z, k)), Shr(z, 2 * k), 64);
    Xor(Xor(z, Shr(z, k)), Shr(z, 2 * k))
  }

  lemma ThirdShiftEmpty(z: Word, k: nat)
    requires 22 <= k
    ensures Shr(z, 3 * k) == 0
  {
    WordsHave64Bits();
    ShrIsDivision(z, 64);
    DivModUnique(z, 0, z, TWO64);
    ShrShr(z, 64, 3 * k - 64);
  }

  lemma ShiftedXor(z: nat, i: nat, k: nat)
    ensures Shr(Xor(Shr(z, i), Shr(z, i + k)), k) == Xor(Shr(z, i + k), Shr(z, i + k + k))
  {
    XorShr(Shr(z, i), Shr(z, i + k), k);
    ShrShr(z, i, k);
    ShrShr(z, i + k, k);
  }

  lemma XorTelescope(a: nat, b: nat, c: nat)
    ensures Xor(Xor(Xor(a, b), Xor(b, c)), c) == a
    ensures Xor(Xor(Xor(a, b), c), Xor(b, c)) == a
  {
    XorAssociates(Xor(a, b), Xor(b, c), c);
    XorCancels(b, c);
    XorCancels(a, b);
    XorAssociates(a, b, c);
    XorCancels(a, Xor(b, c));
  }

  lemma XorUnshiftAfterShift(z: Word, k: nat)
    requires 22 <= k
    ensures XorUnshift(XorShift(z, k), k) == z
  {
    var z1, z2 := Shr(z, k), Shr(z, 2 * k);
    var y := Xor(z, z1);
    assert Shr(y, k) == Xor(z1, z2) by { ShiftedXor(z, 0, k); }
    assert Shr(y, 2 * k) == z2 by {
      ShrShr(y, k, k);
      ShiftedXor(z, k, k);
      ThirdShiftEmpty(z, k);
      XorZero(z2);
    }
    XorTelescope(z, z1, z2);
  }

  lemma UnshiftShifted(z: Word, k: nat)
    requires 22 <= k
    ensures Shr(Xor(Xor(z, Shr(z, k)), Shr(z, 2 * k)), k) == Xor(Shr(z, k), Shr(z, 2 * k))
  {
    var z1, z2 := Shr(z, k), Shr(z, 2 * k);
    XorShr(Xor(z, z1), z2, k);
    ShiftedXor(z, 0, k);
    ShrShr(z, 2 * k, k);
    ThirdShiftEmpty(z, k);
    XorZero(Xor(z1, z2));
  }

  lemma XorShiftAfterUnshift(z: Word, k: nat)
    requires 22 <= k
    ensures XorShift(XorUnshift(z, k), k) == z
  {
    var z1, z2 := Shr(z, k), Shr(z, 2 * k);
    UnshiftShifted(z, k);
    XorTelescope(z, z1, z2);
  }
}

module Rng {
  import opened Words

  const GOLDEN: Word := 0x9E3779B97F4A7C15
  const GOLDEN_INVERSE: Word := 0xF1DE83E19937733D

  // ---------------------------------------------------------------- mixing

  function Mix64(z: Word): Word {
    var a := Mul(XorShift(z, 30), 0xBF58476D1CE4E5B9);
    var b := Mul(XorShift(a, 27), 0x94D049BB133111EB);
    XorShift(b, 31)
  }

  /** The inverse permutation: each xor-shift is undone by XorUnshift, each
      multiplication by the multiplier's inverse modulo 2^64. */
  function Unmix64(r: Word): Word {
    var b := Mul(XorUnshift(r, 31), 0x319642B2D24D8EC3);
    var a := Mul(XorUnshift(b, 27), 0x96DE1B173F119089);
    XorUnshift(a, 30)
  }

  lemma OddMultipliers(z: Word)
    ensures Mul(Mul(z, 0xBF58476D1CE4E5B9), 0x96DE1B173F119089) == z
    ensures Mul(Mul(z, 0x96DE1B173F119089), 0xBF58476D1CE4E5B9) == z
    ensures Mul(Mul(z, 0x94D049BB133111EB), 0x319642B2D24D8EC3) == z
    ensures Mul(Mul(z, 0x319642B2D24D8EC3), 0x94D049BB133111EB) == z
  {
    MulInverse(z, 0xBF58476D1CE4E5B9, 0x96DE1B173F119089, 0x70C3BCA78F27F46C);
    MulInverse(z, 0x96DE1B173F119089, 0xBF58476D1CE4E5B9, 0x70C3BCA78F27F46C);
    MulInverse(z, 0x94D049BB133111EB, 0x319642B2D24D8EC3, 0x1CD336EDA85F1453);
    MulInverse(z, 0x319642B2D24D8EC3, 0x94D049BB133111EB, 0x1CD336EDA85F1453);
  }

  lemma UnmixAfterMix(z: Word)
    ensures Unmix64(Mix64(z)) == z
  {
    var a := Mul(XorShift(z, 30), 0xBF58476D1CE4E5B9);
    var b := Mul(XorShift(a, 27), 0x94D049BB133111EB);
    XorUnshiftAfterShift(b, 31);
    OddMultipliers(XorShift(a, 27));
    XorUnshiftAfterShift(a, 27);
    OddMultipliers(XorShift(z, 30));
    XorUnshiftAfterShift(z, 30);
  }

  lemma MixAfterUnmix(r: Word)
    ensures Mix64(Unmix64(r)) == r
  {
    var b := Mul(XorUnshift(r, 31), 0x319642B2D24D8EC3);
    var a := Mul(XorUnshift(b, 27), 0x96DE1B173F119089);
    XorShiftAfterUnshift(a, 30);
    OddMultipliers(XorUnshift(b, 27));
    XorShiftAfterUnshift(b, 27);
    OddMultipliers(XorUnshift(r, 31));
    XorShiftAfterUnshift(r, 31);
  }

  lemma Mix64Bijective(x: Word, y: Word)
    ensures Mix64(x) == Mix64(y) <==> x == y
    ensures Mix64(Unmix64(y)) == y
  {
    UnmixAfterMix(x);
    UnmixAfterMix(y);
    MixAfterUnmix(y);
  }

  function DeriveU64(seed: Word, stream: Word): (r: Word) {
    WordsHave64Bits();
    XorBound(Mix64(seed), Mix64(Add(stream, GOLDEN)), 64);
    Xor(Mix64(seed), Mix64(Add(stream, GOLDEN)))
  }

  /** Streams of one seed never share a start state, and neither do the same
      stream of two seeds. */
  lemma DeriveInjective(seed1: Word, stream1: Word, seed2: Word, stream2: Word)
    ensures DeriveU64(seed1, stream1) == DeriveU64(seed1, stream2) <==> stream1 == stream2
    ensures DeriveU64(seed1, stream1) == DeriveU64(seed2, stream1) <==> seed1 == seed2
  {
    XorInjective(Mix64(seed1), Mix64(Add(stream1, GOLDEN)), Mix64(Add(stream2, GOLDEN)));
    Mix64Bijective(Add(stream1, GOLDEN), Add(stream2, GOLDEN));
    XorInjective(Mix64(Add(stream1, GOLDEN)), Mix64(seed1), Mix64(seed2));
    XorCommutes(Mix64(seed1), Mix64(Add(stream1, GOLDEN)));
    XorCommutes(Mix64(seed2), Mix64(Add(stream1, GOLDEN)));
    Mix64Bijective(seed1, seed2);
    AddInjective(stream1, stream2, GOLDEN);
  }

  lemma {:induction false} ShrZero(z: nat, k: nat)
    requires z == 0
    ensures Shr(z, k) == 0
    decreases k
  {
    if k > 0 { ShrZero(z / 2, k - 1); }
  }

  lemma XorShiftZero(z: Word, k: nat)
    requires z == 0
    ensures XorShift(z, k) == 0
  {
    ShrZero(z, k);
    XorSelf(z);
  }

  lemma MixZero(z: Word)
    requires z == 0
    ensures Mix64(z) == 0
  {
    XorShiftZero(z, 30);
    var a := Mul(XorShift(z, 30), 0xBF58476D1CE4E5B9);
    XorShiftZero(a, 27);
    var b := Mul(XorShift(a, 27), 0x94D049BB133111EB);
    XorShiftZero(b, 31);
  }

  /** The derived start is the first word of the stream seeded with the stream number, masked by
      the mixed seed: for seed 0 it is that word, and it is 0 for exactly one seed. */
  lemma DeriveIsMaskedWord(seed: Word, stream: Word)
    ensures seed == 0 ==> DeriveU64(seed, stream) == Mix64(StateAfter(stream, 0))
    ensures DeriveU64(seed, stream) == 0 <==> seed == Add(stream, GOLDEN)
    ensures Xor(DeriveU64(seed, stream), Mix64(seed)) == Mix64(StateAfter(stream, 0))
  {
    var m, w := Mix64(seed), Mix64(Add(stream, GOLDEN));
    XorCancels(w, m);
    XorCommutes(m, w);
    if seed == 0 {
      MixZero(seed);
      XorZero(w);
    }
    XorSelf(w);
    XorInjective(w, w, m);
    Mix64Bijective(seed, Add(stream, GOLDEN));
  }

  // ---------------------------------------------------------------- period

  /** The number of words the stream at state `s` emits before the one computed
      from state `t`. */
  function Distance(s: Word, t: Word): Word {
    ((t - s) * GOLDEN_INVERSE - 1) % TWO64
  }

  /** One advance brings the stream one word closer, around the period. */
  lemma DistanceAdvances(s: Word, t: Word)
    ensures Distance(Add(s, GOLDEN), t) == if Distance(s, t) == 0 then TWO64 - 1 else Distance(s, t) - 1
  {
    var c := (s + GOLDEN) / TWO64;
    var d, p := Distance(s, t), ((t - s) * GOLDEN_INVERSE - 1) / TWO64;
    assert (t - s) * GOLDEN_INVERSE - 1 == p * TWO64 + d;
    assert Add(s, GOLDEN) == s + GOLDEN - c * TWO64;
    assert GOLDEN * GOLDEN_INVERSE == 0x957BBF35006ED677 * TWO64 + 1;
    var x := (t - Add(s, GOLDEN)) * GOLDEN_INVERSE - 1;
    var q := p - 0x957BBF35006ED677 + c * GOLDEN_INVERSE;
    assert x == q * TWO64 + d - 1;
    if d == 0 {
      DivModUnique(x, q - 1, TWO64 - 1, TWO64);
    } else {
      DivModUnique(x, q, d - 1, TWO64);
    }
  }

  /** The stream is about to emit t's word exactly when t is the next state. */
  lemma DistanceZero(s: Word, t: Word)
    ensures Distance(s, t) == 0 <==> Add(s, GOLDEN) == t
  {
    var p := ((t - s) * GOLDEN_INVERSE - 1) / TWO64;
    if Add(s, GOLDEN) == t {
      var c := (s + GOLDEN) / TWO64;
      assert GOLDEN * GOLDEN_INVERSE == 0x957BBF35006ED677 * TWO64 + 1;
      assert t - s == GOLDEN - c * TWO64;
      DivModUnique((t - s) * GOLDEN_INVERSE - 1, 0x957BBF35006ED677 - c * GOLDEN_INVERSE, 0, TWO64);
    }
    if Distance(s, t) == 0 {
      assert (t - s) * GOLDEN_INVERSE == p * TWO64 + 1;
      assert (t - s) * GOLDEN_INVERSE * GOLDEN == (t - s) * (GOLDEN_INVERSE * GOLDEN);
      assert (t - s) * 0x957BBF35006ED677 * TWO64 + (t - s) == p * GOLDEN * TWO64 + GOLDEN;
      DivModUnique(s + GOLDEN, (t - s) * 0x957BBF35006ED677 - p * GOLDEN, t, TWO64);
    }
  }

  lemma DistanceStep(s: Word, t: Word)
    ensures Distance(s, t) == 0 <==> Add(s, GOLDEN) == t
    ensures Distance(s, t) > 0 ==> Distance(Add(s, GOLDEN), t) == Distance(s, t) - 1
  {
    DistanceZero(s, t);
    DistanceAdvances(s, t);
  }

  /** State after k + 1 advances. */
  function StateAfter(s: Word, k: nat): Word
    decreases k
  {
    if k == 0 then Add(s, GOLDEN) else StateAfter(Add(s, GOLDEN), k - 1)
  }

  lemma {:induction false} OffsetUnique(s: Word, t: Word, k: nat)
    requires k < TWO64
    ensures StateAfter(s, k) == t <==> k == Distance(s, t)
    decreases k
  {
    DistanceStep(s, t);
    if k > 0 {
      OffsetUnique(Add(s, GOLDEN), t, k - 1);
      DistanceAdvances(s, t);
    }
  }

  /** Within one period of 2^64 words every word is emitted exactly once: word w is
      the one at offset Distance(s, Unmix64(w)) and at no other offset. */
  lemma FullPeriod(s: Word, w: Word, k: nat)
    requires k < TWO64
    ensures Mix64(StateAfter(s, k)) == w <==> k == Distance(s, Unmix64(w))
  {
    Mix64Bijective(StateAfter(s, k), Unmix64(w));
    Mix64Bijective(StateAfter(s, k), w);
    OffsetUnique(s, Unmix64(w), k);
  }

  // ---------------------------------------------------------------- Lemire

  function Hi(x: Word, n: Word): (hi: Word)
    requires n > 0
    ensures hi < n
  {
    ProductBound(x, n);
    x * n / TWO64
  }

  lemma ProductBound(x: Word, n: Word)
    requires n > 0
    ensures 0 <= x * n / TWO64 < n
  {}

  function Lo(x: Word, n: Word): Word { x * n % TWO64 }

  function Threshold(n: Word): Word
    requires n > 0
  {
    (TWO64 - n) % n
  }

  /** `-n % n` in 64-bit arithmetic is 2^64 mod n. */
  lemma ThresholdIsRemainder(n: Word)
    requires n > 0
    ensures Threshold(n) == TWO64 % n < n
    ensures TWO64 == (TWO64 / n) * n + Threshold(n)
  {
    assert TWO64 - n == (TWO64 / n - 1) * n + TWO64 % n;
    DivModUnique(TWO64 - n, TWO64 / n - 1, TWO64 % n, n);
  }

  /** The decision the code takes on one raw word: accept at once when the low half
      reaches the bound, otherwise compare it with the threshold. */
  predicate Accepted(x: Word, n: Word)
    requires n > 0
  {
    Lo(x, n) >= n || Lo(x, n) >= Threshold(n)
  }

  /** The early test never accepts a word the threshold would reject. */
  lemma AcceptedIff(x: Word, n: Word)
    requires n > 0
    ensures Accepted(x, n) <==> Lo(x, n) >= TWO64 % n
  {
    ThresholdIsRemainder(n);
  }

  /** The words that are accepted with result v. */
  function Preimage(v: nat, n: Word): set<nat>
    requires n > 0
  {
    set x: nat | x < TWO64 && Accepted(x, n) && Hi(x, n) == v
  }

  /** The first multiplier x whose product x * n reaches v * 2^64 + 2^64 mod n. */
  function First(v: nat, n: Word): nat
    requires n > 0
  {
    (v * TWO64 + TWO64 % n + n - 1) / n
  }

  lemma FirstIsCeiling(v: nat, n: Word, x: int)
    requires n > 0
    ensures x >= First(v, n) <==> x * n >= v * TWO64 + TWO64 % n
  {
    var base := v * TWO64 + TWO64 % n;
    var f := First(v, n);
    assert f * n <= base + n - 1 < f * n + n by { assert base + n - 1 == f * n + (base + n - 1) % n; }
    if x >= f {
      MulMono(f, x, n);
    } else {
      MulMono(x, f - 1, n);
      assert (f - 1) * n == f * n - n;
    }
  }

  /** An accepted word with result v is exactly a multiplier in a window of
      floor(2^64 / n) consecutive integers. */
  lemma WindowIff(v: nat, n: Word, x: Word)
    requires n > 0 && v < n
    ensures Accepted(x, n) && Hi(x, n) == v <==> First(v, n) <= x < First(v, n) + TWO64 / n
  {
    var q := TWO64 / n;
    ThresholdIsRemainder(n);
    AcceptedIff(x, n);
    var hi, lo := x * n / TWO64, x * n % TWO64;
    assert x * n == hi * TWO64 + lo;
    FirstIsCeiling(v, n, x);
    FirstIsCeiling(v, n, x - q);
    assert (x - q) * n == x * n - q * n;
    // x < First + q  <==>  x * n < (v + 1) * 2^64
    assert x < First(v, n) + q <==> x * n < v * TWO64 + TWO64;
    if hi < v {
      MulMono(hi, v - 1, TWO64);
      assert (v - 1) * TWO64 == v * TWO64 - TWO64;
    } else if hi > v {
      MulMono(v + 1, hi, TWO64);
      assert (v + 1) * TWO64 == v * TWO64 + TWO64;
    }
  }

  lemma WindowInRange(v: nat, n: Word, x: nat)
    requires n > 0 && v < n
    requires First(v, n) <= x < First(v, n) + TWO64 / n
    ensures x < TWO64
  {
    var q := TWO64 / n;
    ThresholdIsRemainder(n);
    FirstIsCeiling(v, n, x - q);
    assert (x - q) * n == x * n - q * n;
    assert x * n < (v + 1) * TWO64;
    MulMono(v + 1, n, TWO64);
    if x >= TWO64 {
      MulMono(TWO64, x, n);
      assert false;
    }
  }

  function Interval(lo: nat, len: nat): (s: set<nat>)
    ensures |s| == len
    ensures forall x {:trigger x in s} :: x in s <==> lo <= x < lo + len
  {
    if len == 0 then {} else Interval(lo, len - 1) + {lo + len - 1}
  }

  /** Exact uniformity: every result below n has the same number of raw words. */
  lemma Unbiased(v: nat, n: Word)
    requires n > 0
    ensures |Preimage(v, n)| == if v < n then TWO64 / n else 0
  {
    if v < n {
      var window := Interval(First(v, n), TWO64 / n);
      forall x: nat
        ensures x in Preimage(v, n) <==> x in window
      {
        if x in window { WindowInRange(v, n, x); }
        if x < TWO64 { WindowIff(v, n, x); }
      }
      assert Preimage(v, n) == window;
    } else {
      assert Preimage(v, n) == {};
    }
  }

  // ---------------------------------------------------------------- draws

  /** The state from which the smallest word accepted for bound n is computed. */
  function Target(n: Word): (t: Word)
    requires n > 0
    ensures Accepted(Mix64(t), n)
  {
    ThresholdIsRemainder(n);
    WindowInRange(0, n, First(0, n));
    WindowIff(0, n, First(0, n));
    MixAfterUnmix(First(0, n));
    Unmix64(First(0, n))
  }

  datatype Drawn = Drawn(state: Word, value: Word)

  /** The bounded draw as a function of the stream state. The recursion is the
      rejection loop; it ends because an accepted word lies at most a period ahead. */
  function Draw(s: Word, n: Word): (d: Drawn)
    requires n > 0
    ensures d.value < n
    ensures Accepted(Mix64(d.state), n) && d.value == Hi(Mix64(d.state), n)
    decreases Distance(s, Target(n))
  {
    var s' := Add(s, GOLDEN);
    var x := Mix64(s');
    if Accepted(x, n) then
      Drawn(s', Hi(x, n))
    else
      DistanceStep(s, Target(n));
      Draw(s', n)
  }

  predicate AcceptedAt(s: Word, n: Word)
    requires n > 0
  {
    Accepted(Mix64(s), n)
  }

  /** How many words the draw rejects: less than one period. */
  function Rejections(s: Word, n: Word): (k: nat)
    requires n > 0
    ensures k <= Distance(s, Target(n)) < TWO64
    decreases Distance(s, Target(n))
  {
    if AcceptedAt(Add(s, GOLDEN), n) then 0
    else
      DistanceStep(s, Target(n));
      1 + Rejections(Add(s, GOLDEN), n)
  }

  lemma DrawStep(s: Word, n: Word, s': Word)
    requires n > 0 && s' == Add(s, GOLDEN)
    ensures AcceptedAt(s', n) ==> Draw(s, n).state == s'
    ensures !AcceptedAt(s', n) ==> Draw(s, n) == Draw(s', n)
  {}

  lemma RejectionsStep(s: Word, n: Word, s': Word)
    requires n > 0 && s' == Add(s, GOLDEN)
    ensures Rejections(s, n) == if AcceptedAt(s', n) then 0 else 1 + Rejections(s', n)
  {}

  /** `misses` counts the states after s that `hit` turns down before the first it takes, and
      `stop` is that one. */
  ghost predicate Searches(hit: Word -> bool, misses: Word -> nat, stop: Word -> Word, s: Word) {
    var s' := Add(s, GOLDEN);
    && misses(s) == (if hit(s') then 0 else 1 + misses(s'))
    && stop(s) == (if hit(s') then s' else stop(s'))
  }

  lemma {:induction false} SearchStops(hit: Word -> bool, misses: Word -> nat, stop: Word -> Word, s: Word)
    requires forall x :: Searches(hit, misses, stop, x)
    ensures stop(s) == StateAfter(s, misses(s)) && hit(stop(s))
    decreases misses(s)
  {
    assert Searches(hit, misses, stop, s);
    if !hit(Add(s, GOLDEN)) { SearchStops(hit, misses, stop, Add(s, GOLDEN)); }
  }

  lemma {:induction false} SearchMissed(hit: Word -> bool, misses: Word -> nat, stop: Word -> Word, s: Word, k: nat)
    requires (forall x :: Searches(hit, misses, stop, x)) && k < misses(s)
    ensures !hit(StateAfter(s, k))
    decreases k
  {
    assert Searches(hit, misses, stop, s);
    if k > 0 { SearchMissed(hit, misses, stop, Add(s, GOLDEN), k - 1); }
  }

  function HitOf(n: Word): Word -> bool
    requires n > 0
  {
    (x: Word) => AcceptedAt(x, n)
  }

  function MissesOf(n: Word): Word -> nat
    requires n > 0
  {
    (x: Word) => Rejections(x, n)
  }

  function StopOf(n: Word): Word -> Word
    requires n > 0
  {
    (x: Word) => Draw(x, n).state
  }

  lemma DrawSearches(n: Word, s: Word)
    requires n > 0
    ensures Searches(HitOf(n), MissesOf(n), StopOf(n), s)
  {
    DrawStep(s, n, Add(s, GOLDEN));
    RejectionsStep(s, n, Add(s, GOLDEN));
  }

  /** The draw takes the first accepted word of the stream. */
  lemma DrawIsFirstAccepted(s: Word, n: Word)
    requires n > 0
    ensures Draw(s, n).state == StateAfter(s, Rejections(s, n))
  {
    forall x: Word
      ensures Searches(HitOf(n), MissesOf(n), StopOf(n), x)
    {
      DrawSearches(n, x);
    }
    SearchStops(HitOf(n), MissesOf(n), StopOf(n), s);
  }

  lemma EarlierWordsRejected(s: Word, n: Word, k: nat)
    requires n > 0 && k < Rejections(s, n)
    ensures !AcceptedAt(StateAfter(s, k), n)
  {
    forall x: Word
      ensures Searches(HitOf(n), MissesOf(n), StopOf(n), x)
    {
      DrawSearches(n, x);
    }
    SearchMissed(HitOf(n), MissesOf(n), StopOf(n), s, k);
  }

  class Stream {
    var state: Word

    constructor (seed: Word)
      ensures state == seed
    {
      state := seed;
    }

    method Uint64() returns (z: Word)
      modifies this
      ensures state == Add(old(state), GOLDEN) && z == Mix64(state)
    {
      state := Add(state, GOLDEN);
      z := state;
      z := Mul(XorShift(z, 30), 0xBF58476D1CE4E5B9);
      z := Mul(XorShift(z, 27), 0x94D049BB133111EB);
      z := XorShift(z, 31);
    }

    /** Rejects until the low half reaches the threshold. `panicked` is the zero
        bound. */
    method Uint64n(n: Word) returns (r: Word, panicked: bool)
      modifies this
      ensures panicked <==> n == 0
      ensures panicked ==> state == old(state)
      ensures !panicked ==> Drawn(state, r) == Draw(old(state), n)
    {
      if n == 0 {
        return 0, true;
      }
      panicked := false;
      ghost var prev := state;
      var x := Uint64();
      var hi, lo := Hi(x, n), Lo(x, n);
      if lo < n {
        var threshold := Threshold(n);
        while lo < threshold
          invariant state == Add(prev, GOLDEN) && x == Mix64(state) && hi == Hi(x, n) && lo == Lo(x, n)
          invariant Draw(old(state), n) == if lo < threshold then Draw(state, n) else Drawn(state, hi)
          decreases Distance(prev, Target(n))
        {
          ThresholdIsRemainder(n);
          DistanceStep(prev, Target(n));
          prev := state;
          x := Uint64();
          hi, lo := Hi(x, n), Lo(x, n);
        }
      }
      r := hi;
    }

    /** The signed bound: panics exactly when it is not positive. */
    method Int63n(n: int) returns (r: nat, panicked: bool)
      requires -0x8000_0000_0000_0000 <= n < 0x8000_0000_0000_0000
      modifies this
      ensures panicked <==> n <= 0
      ensures panicked ==> state == old(state)
      ensures !panicked ==> r < n && Drawn(state, r) == Draw(old(state), n)
    {
      if n <= 0 {
        return 0, true;
      }
      var v, p := Uint64n(n);
      r, panicked := v, p;
    }
  }
}
