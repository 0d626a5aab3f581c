/** The order-size ladder: each batch halves the order size, floored at the minimum. */
module Sizing {
  import opened Common

  /** Size of batch `k`. */
  ghost function Rung(max: real, min: real, k: nat): real {
    if k == 0 then max else Max(Rung(max, min, k - 1) / 2.0, min)
  }

  /** Shares accumulated by the first `n` batches. */
  ghost function RungTotal(max: real, min: real, n: nat): real {
    if n == 0 then 0.0 else RungTotal(max, min, n - 1) + Rung(max, min, n - 1)
  }

  /** First batch `k`, from `from` on, whose cumulative total lies above `shares`; `batches` if there is none. */
  ghost function BatchOf(max: real, min: real, shares: real, batches: nat, from: nat): (k: nat)
    requires from <= batches
    ensures from <= k <= batches
    ensures k < batches ==> shares < RungTotal(max, min, k + 1)
    ensures forall j :: from < j <= k ==> RungTotal(max, min, j) <= shares
    decreases batches - from
  {
    if from == batches || shares < RungTotal(max, min, from + 1) then from
    else BatchOf(max, min, shares, batches, from + 1)
  }

  /** Order size offered to a side that already holds `shares`. */
  ghost function DynamicSize(max: real, min: real, shares: real, batches: nat): real {
    var k := BatchOf(max, min, shares, batches, 0);
    if k < batches then Rung(max, min, k) else min
  }

  method MaxTotalShares(max: real, min: real, batches: nat) returns (total: real)
    ensures total == RungTotal(max, min, batches)
  {
    var size := max;
    total := 0.0;
    for i := 0 to batches
      invariant size == Rung(max, min, i)
      invariant total == RungTotal(max, min, i)
    {
      total := total + size;
      size := Max(size / 2.0, min);
    }
  }

  method DynamicOrderSize(max: real, min: real, shares: real, batches: nat) returns (r: real)
    ensures r == DynamicSize(max, min, shares, batches)
  {
    var size := max;
    var threshold := 0.0;
    for i := 0 to batches
      invariant size == Rung(max, min, i)
      invariant threshold == RungTotal(max, min, i)
      invariant BatchOf(max, min, shares, batches, 0) == BatchOf(max, min, shares, batches, i)
    {
      threshold := threshold + size;
      if shares < threshold {
        return size;
      }
      size := Max(size / 2.0, min);
    }
    r := min;
  }

  // ── Laws of the ladder ──

  ghost function Pow2(k: nat): (p: real)
    ensures p >= 1.0
  {
    if k == 0 then 1.0 else 2.0 * Pow2(k - 1)
  }

  /** The repeatedly floored halving is one halving, floored once. */
  lemma {:induction false} RungClosedForm(max: real, min: real, k: nat)
    requires 0.0 < min <= max
    ensures Rung(max, min, k) == Max(max / Pow2(k), min)
  {
    if k > 0 {
      RungClosedForm(max, min, k - 1);
      HalfOfQuotient(max, Pow2(k - 1));
    }
  }

  lemma HalfOfQuotient(a: real, p: real)
    requires p >= 1.0
    ensures a / (2.0 * p) == a / p / 2.0
  {
    QuotientTimes(a, p);
    var q := a / p;
    assert q / 2.0 * (2.0 * p) == q * p;
    QuotientIs(a, 2.0 * p, q / 2.0);
  }

  lemma {:induction false} RungBounds(max: real, min: real, k: nat)
    requires 0.0 < min <= max
    ensures min <= Rung(max, min, k) <= max
    ensures Rung(max, min, k + 1) <= Rung(max, min, k)
  {
    if k > 0 {
      RungBounds(max, min, k - 1);
    }
  }

  lemma {:induction false} RungTotalMonotone(max: real, min: real, m: nat, n: nat)
    requires 0.0 < min <= max && m <= n
    ensures RungTotal(max, min, m) <= RungTotal(max, min, n)
    ensures m < n ==> RungTotal(max, min, m) + min <= RungTotal(max, min, n)
    decreases n
  {
    if m < n {
      RungTotalMonotone(max, min, m, n - 1);
      RungBounds(max, min, n - 1);
    }
  }

  lemma {:induction false} RungAntitone(max: real, min: real, m: nat, n: nat)
    requires 0.0 < min <= max && m <= n
    ensures Rung(max, min, n) <= Rung(max, min, m)
    decreases n
  {
    if m < n {
      RungAntitone(max, min, m, n - 1);
      RungBounds(max, min, n - 1);
    }
  }

  /** Two batches that bracket the same share count are one batch. */
  lemma BatchUnique(max: real, min: real, shares: real, j: nat, k: nat)
    requires 0.0 < min <= max
    requires RungTotal(max, min, j) <= shares < RungTotal(max, min, j + 1)
    requires RungTotal(max, min, k) <= shares < RungTotal(max, min, k + 1)
    ensures j == k
  {
    if j < k {
      RungTotalMonotone(max, min, j + 1, k);
    } else if k < j {
      RungTotalMonotone(max, min, k + 1, j);
    }
  }

  /** The size offered is the rung of exactly the batch whose cumulative interval holds the shares. */
  lemma DynamicSizeIsTheBracketingRung(max: real, min: real, shares: real, batches: nat, k: nat)
    requires 0.0 < min <= max && 0.0 <= shares && k < batches
    ensures BatchOf(max, min, shares, batches, 0) == k
       <==> RungTotal(max, min, k) <= shares < RungTotal(max, min, k + 1)
    ensures RungTotal(max, min, k) <= shares < RungTotal(max, min, k + 1)
       ==> DynamicSize(max, min, shares, batches) == Rung(max, min, k)
    ensures RungTotal(max, min, batches) <= shares
       ==> DynamicSize(max, min, shares, batches) == min
  {
    var b := BatchOf(max, min, shares, batches, 0);
    RungTotalMonotone(max, min, k + 1, batches);
    if b < batches {
      RungTotalMonotone(max, min, b + 1, batches);
      if RungTotal(max, min, k) <= shares < RungTotal(max, min, k + 1) {
        BatchUnique(max, min, shares, b, k);
      }
    }
  }

  lemma DynamicSizeBounds(max: real, min: real, shares: real, batches: nat)
    requires 0.0 < min <= max
    ensures min <= DynamicSize(max, min, shares, batches) <= max
  {
    var k := BatchOf(max, min, shares, batches, 0);
    RungBounds(max, min, k);
  }

  /** A side that holds more is never offered a larger order. */
  lemma DynamicSizeAntitone(max: real, min: real, a: real, b: real, batches: nat)
    requires 0.0 < min <= max && a <= b
    ensures DynamicSize(max, min, b, batches) <= DynamicSize(max, min, a, batches)
  {
    var j := BatchOf(max, min, a, batches, 0);
    var k := BatchOf(max, min, b, batches, 0);
    RungBounds(max, min, j);
    if k < batches {
      RungAntitone(max, min, j, k);
    }
  }

  /** Size the quoter would post: the rung, capped by what is left below the cap. */
  ghost function PostSize(max: real, min: real, shares: real, batches: nat): real {
    Max(Min(DynamicSize(max, min, shares, batches), RungTotal(max, min, batches) - shares), 0.0)
  }

  /** The size guard refuses a post exactly when less than one minimum order is left below the cap. */
  lemma SizeGuardStopsExactlyAtTheRemainder(max: real, min: real, shares: real, batches: nat)
    requires 0.0 < min <= max
    ensures PostSize(max, min, shares, batches) < min <==> RungTotal(max, min, batches) - shares < min
    ensures shares + PostSize(max, min, shares, batches) <= Max(RungTotal(max, min, batches), shares)
  {
    DynamicSizeBounds(max, min, shares, batches);
  }

  /** Shares held after `n` orders have each filled completely. */
  ghost function AfterFullFills(max: real, min: real, batches: nat, n: nat): real {
    if n == 0 then 0.0
    else
      var held := AfterFullFills(max, min, batches, n - 1);
      held + PostSize(max, min, held, batches)
  }

  /** A side holding exactly the first `n` batches is offered all of batch `n`. */
  lemma PostSizeAtARung(max: real, min: real, batches: nat, n: nat)
    requires 0.0 < min <= max && n < batches
    ensures PostSize(max, min, RungTotal(max, min, n), batches) == Rung(max, min, n)
  {
    var held, rung := RungTotal(max, min, n), Rung(max, min, n);
    RungBounds(max, min, n);
    RungTotalMonotone(max, min, 0, n);
    assert RungTotal(max, min, n + 1) == held + rung;
    RungTotalMonotone(max, min, n + 1, batches);
    DynamicSizeIsTheBracketingRung(max, min, held, batches, n);
    assert DynamicSize(max, min, held, batches) == rung;
  }

  /** Full fills climb the ladder one rung at a time ... */
  lemma {:induction false} FullFillsClimbTheLadder(max: real, min: real, batches: nat, n: nat)
    requires 0.0 < min <= max && n <= batches
    ensures AfterFullFills(max, min, batches, n) == RungTotal(max, min, n)
  {
    if n > 0 {
      FullFillsClimbTheLadder(max, min, batches, n - 1);
      PostSizeAtARung(max, min, batches, n - 1);
    }
  }

  /** ... and stop exactly at the cap, after exactly `batches` orders. */
  lemma {:induction false} FullFillsReachTheCap(max: real, min: real, batches: nat, n: nat)
    requires 0.0 < min <= max
    ensures AfterFullFills(max, min, batches, n) == RungTotal(max, min, if n < batches then n else batches)
    ensures n < batches <==> AfterFullFills(max, min, batches, n) < RungTotal(max, min, batches)
  {
    if n <= batches {
      FullFillsClimbTheLadder(max, min, batches, n);
      RungTotalMonotone(max, min, n, batches);
    } else {
      FullFillsReachTheCap(max, min, batches, n - 1);
      DynamicSizeBounds(max, min, RungTotal(max, min, batches), batches);
    }
  }
}
