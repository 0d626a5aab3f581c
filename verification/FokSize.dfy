/** Size of a fill-or-kill order that the exchange accepts: the dollar amount `price * size` must have
    at most two decimals and be at least one dollar.

    Prices are whole multiples of `1 / scale` (`price == p / scale`); sizes are counted in hundredths
    of a share. So `price * size` is `p * s / (100 * scale)` dollars. */
module FokSize {
  import opened Arithmetic

  const FALLBACK_WINDOW := 10000  // one hundred shares

  predicate TwoDecimals(p: nat, scale: nat, s: int)
    requires scale > 0
  {
    p * s % scale == 0
  }

  predicate MinNotional(p: nat, scale: nat, s: int) {
    p * s >= 100 * scale
  }

  predicate Accepted(p: nat, scale: nat, s: int)
    requires scale > 0
  {
    TwoDecimals(p, scale, s) && MinNotional(p, scale, s)
  }

  /** `ceil(1 / price)` shares, in hundredths. */
  function MinimumSize(p: nat, scale: nat): nat
    requires p > 0 && scale > 0
  {
    (scale + p - 1) / p * 100
  }

  /** Largest accepted size up to `s`; zero if there is none. */
  function LargestAccepted(p: nat, scale: nat, s: nat): (r: nat)
    requires scale > 0
    ensures r <= s
    ensures r > 0 ==> Accepted(p, scale, r)
    ensures forall t :: r < t <= s ==> !Accepted(p, scale, t)
  {
    if s == 0 || Accepted(p, scale, s) then s else LargestAccepted(p, scale, s - 1)
  }

  /** Smallest two-decimal size from `s` to `cap`; zero if there is none. */
  function SmallestTwoDecimals(p: nat, scale: nat, s: nat, cap: nat): (r: nat)
    requires scale > 0 && s > 0
    ensures r > 0 ==> s <= r <= cap && TwoDecimals(p, scale, r)
    ensures forall t :: s <= t <= cap && (r > 0 ==> t < r) ==> !TwoDecimals(p, scale, t)
    decreases cap + 1 - s
  {
    if s > cap then 0
    else if TwoDecimals(p, scale, s) then s
    else SmallestTwoDecimals(p, scale, s + 1, cap)
  }

  function FloorSize(size: real): int {
    (size * 100.0).Floor
  }

  /** The size the search settles on. */
  function SafeSize(p: nat, scale: nat, size: real): nat
    requires scale > 0
  {
    if p == 0 then 0
    else
      var t := FloorSize(size);
      var down := if t > 0 then LargestAccepted(p, scale, t) else 0;
      if down > 0 then down
      else
        var low := MinimumSize(p, scale);
        MinimumSizePositive(p, scale);
        SmallestTwoDecimals(p, scale, low, low + FALLBACK_WINDOW)
  }

  lemma MinimumSizePositive(p: nat, scale: nat)
    requires p > 0 && scale > 0
    ensures MinimumSize(p, scale) >= 100
    ensures MinNotional(p, scale, MinimumSize(p, scale))
    ensures p * (MinimumSize(p, scale) - 100) < 100 * scale
  {
    var q := (scale + p - 1) / p;
    var r := (scale + p - 1) % p;
    assert scale + p - 1 == q * p + r;
    assert q * p >= scale;
    assert q >= 1;
    assert p * (q * 100) == 100 * (q * p);
    assert p * (q * 100 - 100) == 100 * (q * p) - 100 * p;
  }

  lemma NotionalMonotone(p: nat, scale: nat, s: int, t: int)
    requires s <= t && MinNotional(p, scale, s)
    ensures MinNotional(p, scale, t)
  {
    assert p * t == p * s + p * (t - s);
  }

  /** Once the notional is too small, nothing below is accepted. */
  lemma NothingBelowNotional(p: nat, scale: nat, s: nat)
    requires scale > 0 && !MinNotional(p, scale, s)
    ensures LargestAccepted(p, scale, s) == 0
  {
    var r := LargestAccepted(p, scale, s);
    if r > 0 {
      NotionalMonotone(p, scale, r, s);
    }
  }

  lemma NegativeIsTooSmall(p: nat, scale: nat, s: int)
    requires scale > 0 && s <= 0
    ensures !MinNotional(p, scale, s)
  {
    assert p * s <= 0;
  }

  /** The two search loops of the executor. */
  method ClobSafeFokSize(p: nat, scale: nat, size: real) returns (r: nat)
    requires scale > 0
    ensures r == SafeSize(p, scale, size)
  {
    if p == 0 {
      return 0;
    }
    var truncated := FloorSize(size);
    if TwoDecimals(p, scale, truncated) && MinNotional(p, scale, truncated) {
      if truncated <= 0 {
        NegativeIsTooSmall(p, scale, truncated);
      }
      return truncated;
    }
    var s := if truncated >= 1 then truncated - 1 else 0;
    while s > 0
      invariant s >= 0
      invariant truncated <= 0 ==> s == 0
      invariant truncated > 0 ==> LargestAccepted(p, scale, truncated) == LargestAccepted(p, scale, s)
    {
      if !MinNotional(p, scale, s) {
        NothingBelowNotional(p, scale, s);
        break;
      }
      if TwoDecimals(p, scale, s) {
        return s;
      }
      s := s - 1;
    }
    var low := MinimumSize(p, scale);
    MinimumSizePositive(p, scale);
    s := low;
    var cap := low + FALLBACK_WINDOW;
    while s <= cap
      invariant low <= s <= cap + 1
      invariant SmallestTwoDecimals(p, scale, low, cap) == SmallestTwoDecimals(p, scale, s, cap)
    {
      if TwoDecimals(p, scale, s) {
        return s;
      }
      s := s + 1;
    }
    r := 0;
  }

  // ── What the search finds ──

  /** Some accepted size fits under the requested one. */
  ghost predicate FitsUnder(p: nat, scale: nat, size: real)
    requires scale > 0
  {
    exists t: nat :: 0 < t <= FloorSize(size) && Accepted(p, scale, t)
  }

  /** The largest accepted size under the request, if there is one; the request is then never exceeded. */
  lemma SafeSizeIsLargest(p: nat, scale: nat, size: real, t: nat)
    requires p > 0 && scale > 0 && FitsUnder(p, scale, size)
    ensures 0 < SafeSize(p, scale, size) <= FloorSize(size)
    ensures Accepted(p, scale, SafeSize(p, scale, size))
    ensures SafeSize(p, scale, size) < t <= FloorSize(size) ==> !Accepted(p, scale, t)
  {
    var w: nat :| 0 < w <= FloorSize(size) && Accepted(p, scale, w);
    var r := LargestAccepted(p, scale, FloorSize(size));
    assert w <= r;
  }

  /** Otherwise the smallest two-decimal size from one dollar's worth upwards; every result is accepted. */
  lemma SafeSizeIsSmallestAboveOneDollar(p: nat, scale: nat, size: real, t: nat)
    requires p > 0 && scale > 0 && !FitsUnder(p, scale, size)
    ensures SafeSize(p, scale, size) > 0 ==>
              MinimumSize(p, scale) <= SafeSize(p, scale, size) && Accepted(p, scale, SafeSize(p, scale, size))
    ensures MinimumSize(p, scale) <= t < SafeSize(p, scale, size) ==> !TwoDecimals(p, scale, t)
    ensures SafeSize(p, scale, size) == 0 && MinimumSize(p, scale) <= t <= MinimumSize(p, scale) + FALLBACK_WINDOW
         ==> !TwoDecimals(p, scale, t)
  {
    var f := FloorSize(size);
    assert f > 0 ==> LargestAccepted(p, scale, f) == 0;
    var r := SafeSize(p, scale, size);
    MinimumSizePositive(p, scale);
    if r > 0 {
      NotionalMonotone(p, scale, MinimumSize(p, scale), r);
    }
  }

  lemma MultipleOfScale(p: nat, scale: nat, m: nat)
    requires scale > 0
    ensures p * (m * scale) % scale == 0
  {
    assert p * (m * scale) == (p * m) * scale;
    MultipleHasNoRemainder(p * m, scale);
  }

  /** With at most four price decimals the search never gives up. */
  lemma SafeSizeNeverZero(p: nat, scale: nat, m: nat, size: real)
    requires p > 0 && scale > 0 && scale * m == FALLBACK_WINDOW
    ensures SafeSize(p, scale, size) > 0
  {
    if FitsUnder(p, scale, size) {
      SafeSizeIsLargest(p, scale, size, 0);
    } else {
      var low := MinimumSize(p, scale);
      MinimumSizePositive(p, scale);
      var q := (low + FALLBACK_WINDOW) / FALLBACK_WINDOW;
      var t := q * FALLBACK_WINDOW;
      assert low <= t <= low + FALLBACK_WINDOW;
      assert t == (q * m) * scale;
      MultipleOfScale(p, scale, q * m);
      SafeSizeIsSmallestAboveOneDollar(p, scale, size, t);
    }
  }

  /** The overshoot is bounded: by the fallback window in general, and not at all past one dollar's worth
      when prices have two decimals. */
  lemma SafeSizeOvershoot(p: nat, scale: nat, m: nat, size: real)
    requires p > 0 && scale > 0
    ensures SafeSize(p, scale, size) <= FloorSize(size)
         || SafeSize(p, scale, size) <= MinimumSize(p, scale) + FALLBACK_WINDOW
    ensures scale * m == 100 ==>
              SafeSize(p, scale, size) <= FloorSize(size) || SafeSize(p, scale, size) == MinimumSize(p, scale)
  {
    var low := MinimumSize(p, scale);
    MinimumSizePositive(p, scale);
    if !FitsUnder(p, scale, size) {
      var f := FloorSize(size);
      assert f > 0 ==> LargestAccepted(p, scale, f) == 0;
      if scale * m == 100 {
        var q := (scale + p - 1) / p;
        assert low == (q * m) * scale;
        MultipleOfScale(p, scale, q * m);
      }
    } else {
      SafeSizeIsLargest(p, scale, size, 0);
    }
  }

  // ── Exactly when it finds nothing ──

  /** At this price, sizes with a two-decimal cost come in steps of so many hundredths of a share. */
  function Step(p: nat, scale: nat): (step: nat)
    requires scale > 0
    ensures step > 0
  {
    DividesProductExactly(p, scale, 0);
    scale / Gcd(p, scale)
  }

  /** The last step at or below the request is worth a dollar, or some step lies in the fallback window. */
  predicate Findable(p: nat, scale: nat, size: real)
    requires p > 0 && scale > 0
  {
    var f, low, step := FloorSize(size), MinimumSize(p, scale), Step(p, scale);
    || (f > 0 && MinNotional(p, scale, LastMultiple(f, step)))
    || low <= LastMultiple(low + FALLBACK_WINDOW, step)
  }

  lemma FitsUnderExactly(p: nat, scale: nat, size: real)
    requires p > 0 && scale > 0
    ensures FitsUnder(p, scale, size)
       <==> FloorSize(size) > 0 && MinNotional(p, scale, LastMultiple(FloorSize(size), Step(p, scale)))
  {
    var f, step := FloorSize(size), Step(p, scale);
    if f > 0 {
      var t := LastMultiple(f, step);
      DividesProductExactly(p, scale, t);
      if MinNotional(p, scale, t) {
        assert t > 0;
        assert Accepted(p, scale, t);
      }
      if FitsUnder(p, scale, size) {
        var w: nat :| 0 < w <= f && Accepted(p, scale, w);
        DividesProductExactly(p, scale, w);
        LastMultipleIsLast(f, step, w);
        NotionalMonotone(p, scale, w, t);
      }
    }
  }

  /** The search finds a size exactly when there is such a step. */
  lemma SafeSizeIsFoundExactly(p: nat, scale: nat, size: real)
    requires p > 0 && scale > 0
    ensures SafeSize(p, scale, size) > 0 <==> Findable(p, scale, size)
  {
    FitsUnderExactly(p, scale, size);
    if FitsUnder(p, scale, size) {
      SafeSizeIsLargest(p, scale, size, 0);
    } else {
      FoundInWindowExactly(p, scale, size);
    }
  }

  lemma FoundInWindowExactly(p: nat, scale: nat, size: real)
    requires p > 0 && scale > 0 && !FitsUnder(p, scale, size)
    ensures SafeSize(p, scale, size) > 0
       <==> MinimumSize(p, scale) <= LastMultiple(MinimumSize(p, scale) + FALLBACK_WINDOW, Step(p, scale))
  {
    var cap, step := MinimumSize(p, scale) + FALLBACK_WINDOW, Step(p, scale);
    var last, r := LastMultiple(cap, step), SafeSize(p, scale, size);
    DividesProductExactly(p, scale, last);
    SafeSizeIsSmallestAboveOneDollar(p, scale, size, last);
    if r > 0 {
      StaysInWindow(p, scale, size);
      DividesProductExactly(p, scale, r);
      LastMultipleIsLast(cap, step, r);
    }
  }

  lemma StaysInWindow(p: nat, scale: nat, size: real)
    requires p > 0 && scale > 0 && !FitsUnder(p, scale, size)
    ensures SafeSize(p, scale, size) <= MinimumSize(p, scale) + FALLBACK_WINDOW
  {
    var f := FloorSize(size);
    assert f > 0 ==> LargestAccepted(p, scale, f) == 0;
    MinimumSizePositive(p, scale);
  }

  // ── Price decimals ──

  /** A third of a dollar, cut off after `k` decimals. */
  function ThirdOf(k: nat): nat {
    (Pow10(k) - 1) / 3
  }

  /** It shares no factor with the scale. */
  lemma ThirdStep(k: nat)
    ensures Pow10(k) == 3 * ThirdOf(k) + 1 && Step(ThirdOf(k), Pow10(k)) == Pow10(k)
  {
    var q := Pow10LeavesOne(k);
    assert ThirdOf(k) == q;
    NoCommonFactor(q, Pow10(k));
  }

  lemma NoCommonFactor(p: nat, scale: nat)
    requires scale == 3 * p + 1
    ensures Step(p, scale) == scale
  {
    var i, j := GcdDivides(p, scale);
    ThirdUnit(Gcd(p, scale), i, j);
  }

  lemma ThirdUnit(g: nat, i: nat, j: nat)
    requires g * j == 3 * (g * i) + 1
    ensures g == 1
  {
    assert g * (j - 3 * i) == 1;
    FactorOfOne(g, j - 3 * i);
  }

  lemma ThirdMinimum(p: nat, scale: nat)
    requires p > 0 && scale == 3 * p + 1
    ensures MinimumSize(p, scale) == 400
  {
    ModUnique(scale + p - 1, p, 4, 0);
  }

  lemma LargeStepIsNotFindable(p: nat, scale: nat)
    requires p > 0 && scale >= 100000 && MinimumSize(p, scale) == 400 && Step(p, scale) == scale
    ensures !Findable(p, scale, 0.0)
  {
    ModUnique(400 + FALLBACK_WINDOW, scale, 0, 400 + FALLBACK_WINDOW);
  }

  /** With more than four decimals the search gives up on it. */
  lemma ThirdIsNotFindable(k: nat)
    requires k >= 5
    ensures ThirdOf(k) > 0 && SafeSize(ThirdOf(k), Pow10(k), 0.0) == 0
  {
    var p, scale := ThirdOf(k), Pow10(k);
    assert Pow10(3) == 1000 && Pow10(5) == 100 * Pow10(3);
    Pow10Grows(5, k);
    ThirdStep(k);
    ThirdMinimum(p, scale);
    LargeStepIsNotFindable(p, scale);
    SafeSizeIsFoundExactly(p, scale, 0.0);
  }

  /** Prices of `k` decimals always get a size exactly up to four decimals. */
  lemma AlwaysFoundExactlyUpToFourDecimals(k: nat)
    ensures (forall p: nat, size :: p > 0 ==> SafeSize(p, Pow10(k), size) > 0) <==> k <= 4
  {
    if k <= 4 {
      Pow10Splits(k, 4);
      assert Pow10(2) == 100 && Pow10(4) == 100 * Pow10(2);
      forall p: nat, size | p > 0 ensures SafeSize(p, Pow10(k), size) > 0 {
        SafeSizeNeverZero(p, Pow10(k), Pow10(4 - k), size);
      }
    } else {
      ThirdIsNotFindable(k);
    }
  }
}
