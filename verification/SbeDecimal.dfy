/** Numbers of the binary market data: a signed mantissa and a decimal exponent, converted to a decimal. */
module SbeDecimal {
  import opened Arithmetic

  /** `Fault` stands for a panic of the decimal conversion. */
  datatype Result<+T> = Ok(value: T) | Err | Fault

  const WORD := 0x1_0000_0000_0000_0000
  const HALF_WORD := 0x8000_0000_0000_0000

  type I64 = x: int | -HALF_WORD <= x < HALF_WORD
  type I8 = x: int | -128 <= x < 128

  function AsSigned(u: nat): I64 {
    var r := u % WORD;
    if r < HALF_WORD then r else r - WORD
  }

  const DECIMAL_MAX := 0xFFFF_FFFF_FFFF_FFFF_FFFF_FFFF

  /** Mantissa times ten to the exponent. A scale beyond 28 and a product beyond 96 bits panic; the power of ten
      itself is a 64-bit integer that wraps around. */
  function SbeToDecimal(mantissa: I64, exponent: I8): Result<real> {
    if exponent <= 0 then
      if exponent < -28 then Fault else Ok(mantissa as real / Pow10(-exponent) as real)
    else
      var product := mantissa * AsSigned(Pow10(exponent));
      if -DECIMAL_MAX <= product <= DECIMAL_MAX then Ok(product as real) else Fault
  }

  /** The number that was meant. */
  function Exact(mantissa: int, exponent: int): real {
    if exponent <= 0 then mantissa as real / Pow10(-exponent) as real else (mantissa * Pow10(exponent)) as real
  }

  // ── Exactness ──

  lemma Pow10At18()
    ensures Pow10(18) == 1_000_000_000_000_000_000 && Pow10(19) > HALF_WORD
  {
    assert Pow10(3) == 1000;
    assert Pow10(6) == 1000 * Pow10(3);
    assert Pow10(9) == 1000 * Pow10(6);
    assert Pow10(12) == 1000 * Pow10(9);
    assert Pow10(15) == 1000 * Pow10(12);
    assert Pow10(18) == 1000 * Pow10(15);
  }

  /** Powers of ten fit a signed word exactly up to the eighteenth. */
  lemma PowerFits(k: nat)
    ensures AsSigned(Pow10(k)) == Pow10(k) <==> k <= 18
  {
    Pow10At18();
    if k <= 18 {
      Pow10Grows(k, 18);
    } else {
      Pow10Grows(19, k);
    }
  }

  lemma ScaledEqual(m: int, a: int, b: int)
    ensures m * a == m * b <==> m == 0 || a == b
  {
    if m * a == m * b && m != 0 {
      assert m * (a - b) == 0;
    }
  }

  /** The conversion yields the number that was meant exactly for scales up to 28 and for powers up to 18 whose
      product fits 96 bits. */
  lemma ConversionIsExactExactly(mantissa: I64, exponent: I8)
    ensures SbeToDecimal(mantissa, exponent) == Ok(Exact(mantissa, exponent))
       <==> -28 <= exponent
            && (exponent > 0 ==>
                  mantissa == 0
                  || (exponent <= 18 && -DECIMAL_MAX <= mantissa * Pow10(exponent) <= DECIMAL_MAX))
  {
    if exponent > 0 {
      PowerFits(exponent);
      ScaledEqual(mantissa, AsSigned(Pow10(exponent)), Pow10(exponent));
    }
  }

  // ── Panics ──

  /** Exponents at which every mantissa is converted, if not always to what was meant: from the sixty-fourth on the
      power of ten has wrapped around to zero. */
  predicate Safe(exponent: I8) {
    -28 <= exponent <= 9 || exponent >= 64
  }

  /** Powers of ten as the program computes them. */
  function PowerWord(k: nat): (r: nat)
    ensures r < WORD
  {
    if k == 0 then 1 else 10 * PowerWord(k - 1) % WORD
  }

  lemma {:induction false} PowerWordIsPow10(k: nat)
    ensures PowerWord(k) == Pow10(k) % WORD
  {
    if k > 0 {
      PowerWordIsPow10(k - 1);
      TimesTen(Pow10(k - 1));
    }
  }

  lemma TimesTen(a: nat)
    ensures 10 * (a % WORD) % WORD == 10 * a % WORD
  {
    var q, r := a / WORD, a % WORD;
    var c, s := 10 * r / WORD, 10 * r % WORD;
    assert a == q * WORD + r && 10 * r == c * WORD + s;
    ModUnique(10 * a, WORD, 10 * q + c, s);
  }

  function Pow2(k: nat): (n: nat)
    ensures n >= 1
  {
    if k == 0 then 1 else 2 * Pow2(k - 1)
  }

  lemma {:induction false} Pow2Splits(j: nat, k: nat)
    requires j <= k
    ensures Pow2(k) == Pow2(j) * Pow2(k - j)
    decreases k
  {
    if j < k {
      Pow2Splits(j, k - 1);
    }
  }

  lemma Pow2At33()
    ensures Pow2(33) == 0x2_0000_0000 && Pow2(64) == WORD
  {
    assert Pow2(2) == 4 && Pow2(4) == 4 * Pow2(2);
    Pow2Splits(4, 8);
    Pow2Splits(8, 16);
    Pow2Splits(16, 32);
    Pow2Splits(32, 64);
  }

  /** Up to the sixty-third, the wrapped power of ten is an odd multiple of the power of two. */
  lemma {:induction false} OddMultiple(k: nat) returns (odd: nat)
    requires k <= 63
    ensures PowerWord(k) == Pow2(k) * odd && odd % 2 == 1
  {
    if k == 0 {
      odd := 1;
    } else {
      var before := OddMultiple(k - 1);
      WordSplits(k);
      odd := OddStep(Pow2(k - 1), Pow2(63 - k), before);
    }
  }

  lemma WordSplits(k: nat)
    requires 1 <= k <= 63
    ensures WORD == 2 * Pow2(k - 1) * (2 * Pow2(63 - k))
  {
    Pow2At33();
    Pow2Splits(k, 64);
  }

  lemma OddStep(c: nat, half: nat, before: nat) returns (odd: nat)
    requires c > 0 && half > 0 && before % 2 == 1 && WORD == 2 * c * (2 * half)
    ensures 10 * (c * before) % WORD == 2 * c * odd && odd % 2 == 1
  {
    odd := 5 * before % (2 * half);
    TimesTenAs(c, before);
    ScaledRemainder(2 * c, 5 * before, 2 * half);
    OddRemainder(5 * before, half);
  }

  lemma TimesTenAs(c: nat, x: nat)
    ensures 10 * (c * x) == 2 * c * (5 * x)
  {
  }

  lemma ScaledRemainder(c: nat, x: nat, m: nat)
    requires c > 0 && m > 0
    ensures c * m > 0 && c * x % (c * m) == c * (x % m)
  {
    var q, r := x / m, x % m;
    assert x == q * m + r;
    MultipleIsLarge(m - r, c);
    assert c * r < c * m;
    assert c * x == q * (c * m) + c * r;
    ModUnique(c * x, c * m, q, c * r);
  }

  lemma OddRemainder(x: nat, half: nat)
    requires x % 2 == 1 && half > 0
    ensures x % (2 * half) % 2 == 1
  {
    var q, r := x / (2 * half), x % (2 * half);
    assert x == 2 * (q * half) + r;
  }

  lemma BetweenMultiples(c: nat, m: nat, odd: nat)
    requires c > 0 && odd >= 1 && WORD == c * m && c * odd < WORD
    ensures c <= c * odd <= WORD - c
  {
    MultipleIsLarge(odd, c);
    MultipleIsLarge(m - odd, c);
    assert c * m - c * odd == (m - odd) * c;
  }

  lemma LargeFromThirtyThree(k: nat)
    requires 33 <= k <= 63
    ensures Large(k)
  {
    var odd := OddMultiple(k);
    Pow2At33();
    Pow2Splits(k, 64);
    BetweenMultiples(Pow2(k), Pow2(64 - k), odd);
    Pow2Splits(33, k);
    MultipleIsLarge(Pow2(k - 33), Pow2(33));
  }

  /** A wrapped power that is near no multiple of the word. */
  predicate Large(k: nat) {
    0x2_0000_0000 <= PowerWord(k) <= WORD - 0x2_0000_0000
  }

  /** The last power that fits, and the first ones that have wrapped around. */
  function Wrapped(k: nat): nat
    requires 18 <= k <= 32
  {
    if k == 18 then 1_000_000_000_000_000_000
    else if k == 19 then 10_000_000_000_000_000_000
    else if k == 20 then 7_766_279_631_452_241_920
    else if k == 21 then 3_875_820_019_684_212_736
    else if k == 22 then 1_864_712_049_423_024_128
    else if k == 23 then 200_376_420_520_689_664
    else if k == 24 then 2_003_764_205_206_896_640
    else if k == 25 then 1_590_897_978_359_414_784
    else if k == 26 then 15_908_979_783_594_147_840
    else if k == 27 then 11_515_845_246_265_065_472
    else if k == 28 then 4_477_988_020_393_345_024
    else if k == 29 then 7_886_392_056_514_347_008
    else if k == 30 then 5_076_944_270_305_263_616
    else if k == 31 then 13_875_954_555_633_532_928
    else 9_632_337_040_368_467_968
  }

  lemma WrappedStep(k: nat)
    requires 18 <= k < 32
    ensures 10 * Wrapped(k) % WORD == Wrapped(k + 1)
  {
  }

  lemma PowerWordStep(k: nat, r: nat)
    requires PowerWord(k) == r
    ensures PowerWord(k + 1) == 10 * r % WORD
  {
  }

  lemma SmallPowersDoNotWrap(k: nat, power: nat)
    requires power == Pow10(k) < WORD
    ensures PowerWord(k) == power
  {
    PowerWordIsPow10(k);
    ModUnique(power, WORD, 0, power);
  }

  lemma LastThatFits(k: nat)
    requires k == 18
    ensures PowerWord(k) == Wrapped(k)
  {
    Pow10At18();
    SmallPowersDoNotWrap(k, 1_000_000_000_000_000_000);
  }

  lemma {:induction false} WrappedIsPower(k: nat)
    requires 18 <= k <= 32
    ensures PowerWord(k) == Wrapped(k)
  {
    if k == 18 {
      LastThatFits(k);
    } else {
      WrappedIsPower(k - 1);
      WrappedStep(k - 1);
      PowerWordStep(k - 1, Wrapped(k - 1));
    }
  }

  lemma LargeUpToThirtyTwo(k: nat)
    requires 10 <= k <= 32
    ensures Large(k)
  {
    if k <= 18 {
      Pow10Grows(10, k);
      Pow10Grows(k, 18);
      Pow10At18();
      SmallPowersDoNotWrap(k, Pow10(k));
      assert Pow10(5) == 100_000 && Pow10(10) == 100_000 * Pow10(5);
    } else {
      WrappedIsPower(k);
    }
  }

  lemma {:induction false} ZeroFromSixtyFour(k: nat)
    requires k >= 64
    ensures PowerWord(k) == 0
  {
    if k > 64 {
      ZeroFromSixtyFour(k - 1);
    } else {
      var odd := OddMultiple(k - 1);
      Pow2At33();
      TenTimesHalfWord(Pow2(k - 1), odd);
    }
  }

  lemma TenTimesHalfWord(half: nat, odd: nat)
    requires 2 * half == WORD
    ensures 10 * (half * odd) % WORD == 0
  {
    assert 10 * (half * odd) == 5 * odd * WORD;
    MultipleHasNoRemainder(5 * odd, WORD);
  }

  lemma SafeNeverFaults(mantissa: I64, exponent: I8)
    requires Safe(exponent)
    ensures !SbeToDecimal(mantissa, exponent).Fault?
  {
    if exponent > 0 {
      PowerWordIsPow10(exponent);
      if exponent >= 64 {
        ZeroFromSixtyFour(exponent);
      } else {
        PowerFits(exponent);
        Pow10Grows(exponent, 9);
        assert Pow10(3) == 1000 && Pow10(6) == 1000 * Pow10(3) && Pow10(9) == 1000 * Pow10(6);
        ProductFits(mantissa, Pow10(exponent));
      }
    }
  }

  lemma ProductFits(mantissa: I64, power: nat)
    requires power <= 1_000_000_000
    ensures -DECIMAL_MAX <= mantissa * power <= DECIMAL_MAX
  {
    ProductGrows(mantissa, HALF_WORD, power);
    ProductGrows(-HALF_WORD, mantissa, power);
  }

  /** At every other exponent some mantissa makes the conversion panic. */
  lemma UnsafeFaults(exponent: I8) returns (mantissa: I64)
    requires !Safe(exponent)
    ensures SbeToDecimal(mantissa, exponent).Fault?
  {
    mantissa := -HALF_WORD;
    if exponent > 0 {
      PowerWordIsPow10(exponent);
      if exponent <= 32 {
        LargeUpToThirtyTwo(exponent);
      } else {
        LargeFromThirtyThree(exponent);
      }
      Pow2At33();
      var w := AsSigned(Pow10(exponent));
      assert w <= -0x2_0000_0000 || w >= 0x2_0000_0000;
    }
  }
}
