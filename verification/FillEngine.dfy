/** Rounding and fee arithmetic shared by the engine and the executor. */
module FillEngine {
  import opened Common

  /** `Decimal::round`: to the nearest integer, halves to the even neighbour. */
  function RoundHalfEven(x: real): int {
    var f := x.Floor;
    var d := x - f as real;
    if d < 0.5 then f
    else if d > 0.5 then f + 1
    else if f % 2 == 0 then f
    else f + 1
  }

  /** Rounds a price to the nearest multiple of `tick`; a zero tick leaves it alone. */
  function RoundToTick(price: real, tick: real): real {
    if tick == 0.0 then price
    else RoundHalfEven(price / tick) as real * tick
  }

  const CENT := 0.01

  /** `round_dp_with_strategy(2, ToZero)`. */
  function TruncateToCents(x: real): real {
    if x < 0.0 then -((-x * 100.0).Floor as real / 100.0)
    else (x * 100.0).Floor as real / 100.0
  }

  function TakerFee(price: real, size: real): real {
    var inner := price * (1.0 - price);
    size * price * 0.25 * inner * inner
  }

  function Ticks(k: int, tick: real): real {
    k as real * tick
  }

  /** `price` is a whole number of ticks. */
  ghost predicate OnGrid(price: real, tick: real) {
    exists k :: price == Ticks(k, tick)
  }

  lemma RoundHalfEvenIsNearest(x: real, k: int)
    ensures Abs(RoundHalfEven(x) as real - x) <= 0.5
    ensures Abs(RoundHalfEven(x) as real - x) <= Abs(k as real - x)
  {
    var f := x.Floor;
    assert k <= f || k >= f + 1;
  }

  lemma GridPriceIsKept(j: int, tick: real)
    requires tick > 0.0
    ensures RoundToTick(Ticks(j, tick), tick) == Ticks(j, tick)
  {
    var q := Ticks(j, tick) / tick;
    assert q * tick == j as real * tick;
    if q < j as real {
      MulStrict(q, j as real, tick);
    } else if j as real < q {
      MulStrict(j as real, q, tick);
    }
    assert RoundHalfEven(q) == j;
  }

  lemma WithinHalfATick(k: int, q: real, tick: real)
    requires tick > 0.0 && -0.5 <= k as real - q <= 0.5
    ensures -tick / 2.0 <= Ticks(k, tick) - q * tick <= tick / 2.0
  {
    var e := k as real - q;
    assert Ticks(k, tick) - q * tick == e * tick;
    MulMono(e, 0.5, tick);
    MulMono(-0.5, e, tick);
  }

  /** Rounding a price lands on the grid, at most half a tick away, and leaves exactly the grid prices alone. */
  lemma RoundToTickProperties(price: real, tick: real)
    requires tick > 0.0
    ensures OnGrid(RoundToTick(price, tick), tick)
    ensures Abs(RoundToTick(price, tick) - price) <= tick / 2.0
    ensures RoundToTick(price, tick) == price <==> OnGrid(price, tick)
  {
    var q := price / tick;
    var k := RoundHalfEven(q);
    assert q * tick == price;
    assert RoundToTick(price, tick) == Ticks(k, tick);
    RoundHalfEvenIsNearest(q, k);
    WithinHalfATick(k, q, tick);
    if OnGrid(price, tick) {
      var j :| price == Ticks(j, tick);
      GridPriceIsKept(j, tick);
    }
  }

  /** The executor rounds every maker price to a whole cent once more. That changes nothing exactly when
      the price already is a whole number of cents. */
  lemma ReRoundingIsIdentityExactlyOnCents(price: real)
    ensures RoundToTick(price, CENT) == price <==> OnGrid(price, CENT)
  {
    RoundToTickProperties(price, CENT);
  }

  /** A grid of whole cents is a sub-grid of the cent grid. */
  lemma WholeCentTicksStayOnCents(price: real, tick: real)
    requires OnGrid(tick, CENT) && OnGrid(price, tick)
    ensures OnGrid(price, CENT)
  {
    var c :| tick == Ticks(c, CENT);
    var k :| price == Ticks(k, tick);
    assert price == Ticks(k * c, CENT);
  }

  lemma TruncateToCentsBounds(x: real)
    requires x >= 0.0
    ensures 0.0 <= TruncateToCents(x) <= x
    ensures x - TruncateToCents(x) < CENT
  {
  }

  lemma TakerFeeNonNegative(price: real, size: real)
    requires 0.0 <= price && 0.0 <= size
    ensures TakerFee(price, size) >= 0.0
  {
    var inner := price * (1.0 - price);
    var base := size * price * 0.25;
    assert base >= 0.0;
    assert inner * inner >= 0.0;
    assert base * inner * inner == base * (inner * inner);
  }
}
