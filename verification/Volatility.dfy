/** Realized volatility over a ring buffer of log-returns, and the sliding window it stands for. The logarithm and
    the square root are parameters. */
module Volatility {
  import opened Arithmetic
  import opened Common

  // ── The tracker, as a value ──

  datatype Ring = Ring(slots: seq<real>, head: nat, count: nat, sumSq: real, prevPrice: real, lastUpdateMs: nat)

  function EmptyRing(capacity: nat): Ring {
    Ring(seq(capacity, _ => 0.0), 0, 0, 0.0, 0.0, 0)
  }

  predicate Shaped(r: Ring) {
    r.head < |r.slots|
  }

  /** Writes a return over the oldest slot. */
  function Push(r: Ring, x: real): (p: Ring)
    requires Shaped(r)
    ensures Shaped(p) && |p.slots| == |r.slots|
  {
    var capacity, oldest := |r.slots|, r.slots[r.head];
    var kept := if r.count >= capacity then r.sumSq - oldest * oldest else r.sumSq;
    r.(slots := r.slots[r.head := x], sumSq := kept + x * x, head := (r.head + 1) % capacity, count := r.count + 1)
  }

  function Updated(ln: real -> real, r: Ring, price: real, now: nat): (p: Ring)
    requires Shaped(r)
    ensures Shaped(p) && |p.slots| == |r.slots|
  {
    if price <= 0.0 then r
    else
      var q := if r.prevPrice > 0.0 then Push(r, ln(price / r.prevPrice)) else r;
      q.(prevPrice := price, lastUpdateMs := now)
  }

  // ── The tracker of the program ──

  class RealizedVolTracker {
    const ln: real -> real
    const sqrt: real -> real
    const capacity: nat
    const minWarmup: nat
    const defaultVol: real
    const freshnessMaxMs: nat
    const slots: array<real>
    var head: nat
    var count: nat
    var sumSq: real
    var prevPrice: real
    var lastUpdateMs: nat

    ghost predicate Valid()
      reads this
    {
      slots.Length == capacity && head < capacity
    }

    function View(): Ring
      reads this, slots
    {
      Ring(slots[..], head, count, sumSq, prevPrice, lastUpdateMs)
    }

    /** A ring without slots could not hold its first return. */
    constructor (ln: real -> real, sqrt: real -> real, capacity: nat, minWarmup: nat, defaultVol: real, maxAge: nat)
      requires capacity > 0
      ensures Valid() && View() == EmptyRing(capacity)
      ensures this.ln == ln && this.sqrt == sqrt && this.capacity == capacity
      ensures this.minWarmup == minWarmup && this.defaultVol == defaultVol && freshnessMaxMs == maxAge
    {
      this.ln, this.sqrt, this.capacity := ln, sqrt, capacity;
      this.minWarmup, this.defaultVol, freshnessMaxMs := minWarmup, defaultVol, maxAge;
      var zeros := new real[capacity](_ => 0.0);
      slots := zeros;
      head, count, sumSq, prevPrice, lastUpdateMs := 0, 0, 0.0, 0.0, 0;
      new;
      assert slots[..] == EmptyRing(capacity).slots;
    }

    /** The new return takes the oldest slot. */
    method Enter(logReturn: real)
      requires Valid()
      modifies this, slots
      ensures Valid() && View() == Push(old(View()), logReturn)
    {
      if count >= capacity {
        var oldest := slots[head];
        sumSq := sumSq - oldest * oldest;
      }
      slots[head] := logReturn;
      sumSq := sumSq + logReturn * logReturn;
      head := (head + 1) % capacity;
      count := count + 1;
      assert slots[..] == old(slots[..])[old(head) := logReturn];
    }

    method Update(price: real, now: nat)
      requires Valid()
      modifies this, slots
      ensures Valid() && View() == Updated(ln, old(View()), price, now)
    {
      if price <= 0.0 {
        return;
      }
      if prevPrice > 0.0 {
        Enter(ln(price / prevPrice));
      }
      prevPrice := price;
      lastUpdateMs := now;
    }

    method RealizedVol() returns (vol: real)
      requires Valid()
      ensures vol == Volatility(sqrt, View(), minWarmup, defaultVol)
    {
      var n := if count < capacity then count else capacity;
      if n < minWarmup {
        return defaultVol;
      }
      var variance := if n == 0 then 0.0 else Max(sumSq / n as real, 0.0);
      vol := sqrt(variance);
    }

    predicate IsWarm()
      reads this
    {
      count >= minWarmup
    }

    predicate IsFresh(now: nat)
      reads this
    {
      lastUpdateMs > 0 && SaturatingSub(now, lastUpdateMs) <= freshnessMaxMs
    }
  }

  function Held(r: Ring): nat {
    if r.count < |r.slots| then r.count else |r.slots|
  }

  /** Standard deviation of the held returns around zero. With nothing held and no warm-up asked for, the
      quotient of zeros is no number, and its maximum with zero is zero. */
  function Volatility(sqrt: real -> real, r: Ring, minWarmup: nat, defaultVol: real): real {
    if Held(r) < minWarmup then defaultVol
    else sqrt(if Held(r) == 0 then 0.0 else Max(r.sumSq / Held(r) as real, 0.0))
  }

  // ── The sliding window ──

  ghost function SumSq(s: seq<real>): real {
    if s == [] then 0.0 else SumSq(s[..|s| - 1]) + s[|s| - 1] * s[|s| - 1]
  }

  ghost function Window(log: seq<real>, capacity: nat): seq<real> {
    if |log| <= capacity then log else log[|log| - capacity..]
  }

  /** The ring holds exactly the last returns of `log`, each in the slot of its number, and their squares' sum. */
  ghost predicate Holds(r: Ring, log: seq<real>) {
    var capacity := |r.slots|;
    && capacity > 0 && r.count == |log| && r.head == |log| % capacity
    && (forall j :: 0 <= j < |log| && |log| - capacity <= j ==> InSlot(r, log, j))
    && r.sumSq == SumSq(Window(log, capacity))
  }

  ghost predicate InSlot(r: Ring, log: seq<real>, j: nat)
    requires j < |log| && |r.slots| > 0
  {
    r.slots[j % |r.slots|] == log[j]
  }

  lemma ModDiffers(a: nat, b: nat, c: int)
    requires a < b < a + c
    ensures a % c != b % c
  {
    MultipleIsLarge(b / c - a / c, c);
    assert b - a == (b / c - a / c) * c + (b % c - a % c);
  }

  lemma ModAdd(n: nat, c: nat)
    requires c > 0
    ensures (n + c) % c == n % c && (n % c + 1) % c == (n + 1) % c
  {
    var q, r := n / c, n % c;
    assert n == q * c + r;
    ModUnique(n + c, c, q + 1, r);
    if r + 1 < c {
      ModUnique(n + 1, c, q, r + 1);
      ModUnique(r + 1, c, 0, r + 1);
    } else {
      ModUnique(n + 1, c, q + 1, 0);
      ModUnique(r + 1, c, 1, 0);
    }
  }

  lemma {:induction false} SumSqHead(s: seq<real>)
    requires s != []
    ensures SumSq(s) == s[0] * s[0] + SumSq(s[1..])
  {
    var n := |s| - 1;
    if n > 0 {
      SumSqHead(s[..n]);
      assert s[..n][1..] == s[1..][..n - 1];
    }
  }

  lemma SumSqAppend(s: seq<real>, x: real)
    ensures SumSq(s + [x]) == SumSq(s) + x * x
  {
    assert (s + [x])[..|s|] == s;
  }

  lemma {:induction false} SumSqNonNegative(s: seq<real>)
    ensures SumSq(s) >= 0.0
  {
    if s != [] {
      SumSqNonNegative(s[..|s| - 1]);
    }
  }

  /** The window moves by one: the oldest return leaves, the new one enters. */
  lemma WindowMoves(log: seq<real>, x: real, capacity: nat)
    requires capacity > 0
    ensures Window(log + [x], capacity)
         == (if |log| >= capacity then Window(log, capacity)[1..] else Window(log, capacity)) + [x]
  {
  }

  /** Subtracting the oldest slot's square leaves the window without its first return. */
  lemma OldestLeaves(r: Ring, log: seq<real>)
    requires Shaped(r) && Holds(r, log) && |log| >= |r.slots|
    ensures r.sumSq - r.slots[r.head] * r.slots[r.head] == SumSq(Window(log, |r.slots|)[1..])
  {
    ModAdd(|log| - |r.slots|, |r.slots|);
    assert InSlot(r, log, |log| - |r.slots|);
    SumSqHead(Window(log, |r.slots|));
  }

  /** The running sum follows the window. */
  lemma PushSum(r: Ring, log: seq<real>, x: real)
    requires Shaped(r) && Holds(r, log)
    ensures Push(r, x).sumSq == SumSq(Window(log + [x], |r.slots|))
  {
    var capacity, n := |r.slots|, |log|;
    WindowMoves(log, x, capacity);
    if n >= capacity {
      OldestLeaves(r, log);
      SumSqAppend(Window(log, capacity)[1..], x);
    } else {
      SumSqAppend(Window(log, capacity), x);
    }
  }

  /** Every other return stays in its slot. */
  lemma PushSlots(r: Ring, log: seq<real>, x: real, j: nat)
    requires Shaped(r) && Holds(r, log)
    requires j <= |log| < j + |r.slots|
    ensures InSlot(Push(r, x), log + [x], j)
  {
    if j < |log| {
      ModDiffers(j, |log|, |r.slots|);
      assert InSlot(r, log, j);
    }
  }

  lemma PushHolds(r: Ring, log: seq<real>, x: real)
    requires Shaped(r) && Holds(r, log)
    ensures Holds(Push(r, x), log + [x])
  {
    var p, more := Push(r, x), log + [x];
    ModAdd(|log|, |r.slots|);
    PushSum(r, log, x);
    forall j | 0 <= j < |more| && |more| - |r.slots| <= j ensures InSlot(p, more, j) {
      PushSlots(r, log, x, j);
    }
  }

  lemma HoldsFrame(r: Ring, p: Ring, log: seq<real>)
    requires Holds(r, log)
    requires p.slots == r.slots && p.head == r.head && p.count == r.count && p.sumSq == r.sumSq
    ensures Holds(p, log)
  {
    forall j | 0 <= j < |log| && |log| - |p.slots| <= j ensures InSlot(p, log, j) {
      assert InSlot(r, log, j);
    }
  }

  // ── All updates ──

  datatype Quote = Quote(price: real, now: nat)

  ghost function AfterQuotes(ln: real -> real, capacity: nat, quotes: seq<Quote>): (r: Ring)
    requires capacity > 0
    ensures Shaped(r) && |r.slots| == capacity
  {
    if quotes == [] then EmptyRing(capacity)
    else
      var q := quotes[|quotes| - 1];
      Updated(ln, AfterQuotes(ln, capacity, quotes[..|quotes| - 1]), q.price, q.now)
  }

  type Price = p: real | p > 0.0 witness 1.0

  /** The prices that count. */
  ghost function Prices(quotes: seq<Quote>): seq<Price> {
    if quotes == [] then []
    else
      var q := quotes[|quotes| - 1];
      Prices(quotes[..|quotes| - 1]) + (if q.price > 0.0 then [q.price] else [])
  }

  /** Log-returns of consecutive prices. */
  ghost function LogReturns(ln: real -> real, prices: seq<Price>): seq<real> {
    if |prices| < 2 then []
    else
      var n := |prices| - 1;
      LogReturns(ln, prices[..n]) + [ln(prices[n] / prices[n - 1])]
  }

  lemma LogReturnsAppend(ln: real -> real, prices: seq<Price>, p: Price)
    ensures prices == [] ==> LogReturns(ln, prices + [p]) == []
    ensures prices != [] ==>
              LogReturns(ln, prices + [p]) == LogReturns(ln, prices) + [ln(p / prices[|prices| - 1])]
  {
    assert (prices + [p])[..|prices|] == prices;
  }

  ghost predicate Follows(ln: real -> real, r: Ring, prices: seq<Price>) {
    Holds(r, LogReturns(ln, prices)) && r.prevPrice == if prices == [] then 0.0 else prices[|prices| - 1]
  }

  lemma UpdateFollows(ln: real -> real, r: Ring, prices: seq<Price>, p: Price, now: nat)
    requires Shaped(r) && Follows(ln, r, prices)
    ensures Follows(ln, Updated(ln, r, p, now), prices + [p])
  {
    var log, after := LogReturns(ln, prices), Updated(ln, r, p, now);
    LogReturnsAppend(ln, prices, p);
    if prices == [] {
      assert LogReturns(ln, prices + [p]) == log;
      HoldsFrame(r, after, log);
    } else {
      var x := ln(p / r.prevPrice);
      PushHolds(r, log, x);
      HoldsFrame(Push(r, x), after, log + [x]);
    }
  }

  /** Whatever is fed, the ring is the sliding window over the log-returns of the positive prices. */
  lemma {:induction false} RingIsTheSlidingWindow(ln: real -> real, capacity: nat, quotes: seq<Quote>)
    requires capacity > 0
    ensures Follows(ln, AfterQuotes(ln, capacity, quotes), Prices(quotes))
  {
    if quotes != [] {
      var front, q := quotes[..|quotes| - 1], quotes[|quotes| - 1];
      RingIsTheSlidingWindow(ln, capacity, front);
      if q.price > 0.0 {
        UpdateFollows(ln, AfterQuotes(ln, capacity, front), Prices(front), q.price, q.now);
      } else {
        assert Prices(quotes) == Prices(front);
      }
    }
  }

  ghost predicate IsSquareRoot(sqrt: real -> real) {
    forall x :: x >= 0.0 ==> sqrt(x) >= 0.0 && sqrt(x) * sqrt(x) == x
  }

  ghost predicate RootMeanSquare(vol: real, w: seq<real>, minWarmup: nat, defaultVol: real) {
    if |w| < minWarmup then vol == defaultVol else vol >= 0.0 && vol * vol * |w| as real == SumSq(w)
  }

  /** Once warm, the volatility is the root mean square of exactly the window's returns; the clamp at zero never
      acts. */
  lemma VolatilityIsRootMeanSquare(ln: real -> real, sqrt: real -> real, capacity: nat, quotes: seq<Quote>,
                                   minWarmup: nat, defaultVol: real)
    requires capacity > 0 && IsSquareRoot(sqrt)
    ensures RootMeanSquare(Volatility(sqrt, AfterQuotes(ln, capacity, quotes), minWarmup, defaultVol),
                           Window(LogReturns(ln, Prices(quotes)), capacity), minWarmup, defaultVol)
  {
    var r, log := AfterQuotes(ln, capacity, quotes), LogReturns(ln, Prices(quotes));
    assert Holds(r, log) by {
      RingIsTheSlidingWindow(ln, capacity, quotes);
    }
    WindowVolatility(sqrt, r, log, minWarmup, defaultVol);
  }

  lemma WindowVolatility(sqrt: real -> real, r: Ring, log: seq<real>, minWarmup: nat, defaultVol: real)
    requires IsSquareRoot(sqrt) && Holds(r, log)
    ensures RootMeanSquare(Volatility(sqrt, r, minWarmup, defaultVol), Window(log, |r.slots|), minWarmup, defaultVol)
  {
    var w := Window(log, |r.slots|);
    assert |w| == Held(r);
    SumSqNonNegative(w);
    if |w| > 0 {
      var mean := MeanOf(SumSq(w), |w| as real);
      assert sqrt(mean) * sqrt(mean) == mean;
    } else {
      assert sqrt(0.0) * sqrt(0.0) == 0.0;
    }
  }

  lemma MeanOf(sum: real, n: real) returns (mean: real)
    requires sum >= 0.0 && n > 0.0
    ensures mean == sum / n == Max(sum / n, 0.0) && mean * n == sum
  {
    mean := sum / n;
  }

  /** `n` returns, from a price that never moves. */
  ghost function Flat(n: nat): (quotes: seq<Quote>)
    ensures quotes != []
  {
    if n == 0 then [Quote(1.0, 0)] else Flat(n - 1) + [Quote(1.0, 0)]
  }

  lemma PricesAppend(quotes: seq<Quote>, q: Quote)
    requires q.price > 0.0
    ensures Prices(quotes + [q]) == Prices(quotes) + [q.price]
  {
    assert (quotes + [q])[..|quotes|] == quotes;
  }

  lemma {:induction false} FlatPrices(n: nat)
    ensures |Prices(Flat(n))| == n + 1
  {
    var q := Quote(1.0, 0);
    if n == 0 {
      PricesAppend([], q);
      assert [] + [q] == Flat(0);
    } else {
      FlatPrices(n - 1);
      PricesAppend(Flat(n - 1), q);
    }
  }

  lemma {:induction false} ReturnsBetweenPrices(ln: real -> real, prices: seq<Price>)
    ensures |LogReturns(ln, prices)| == if prices == [] then 0 else |prices| - 1
  {
    if |prices| >= 2 {
      ReturnsBetweenPrices(ln, prices[..|prices| - 1]);
    }
  }

  lemma CountIsReturns(ln: real -> real, capacity: nat, quotes: seq<Quote>)
    requires capacity > 0
    ensures AfterQuotes(ln, capacity, quotes).count == |LogReturns(ln, Prices(quotes))|
  {
    RingIsTheSlidingWindow(ln, capacity, quotes);
  }

  ghost predicate WarmFlagAgrees(ln: real -> real, capacity: nat, minWarmup: nat, quotes: seq<Quote>)
    requires capacity > 0
  {
    var r := AfterQuotes(ln, capacity, quotes);
    r.count >= minWarmup <==> Held(r) >= minWarmup
  }

  /** The warm flag and the volatility agree on being warm, through every history, exactly when the ring can hold
      the warm-up. */
  lemma WarmFlagAgreesExactly(ln: real -> real, capacity: nat, minWarmup: nat)
    requires capacity > 0
    ensures (forall quotes :: WarmFlagAgrees(ln, capacity, minWarmup, quotes)) <==> minWarmup <= capacity
  {
    if minWarmup > capacity {
      FlatPrices(minWarmup);
      ReturnsBetweenPrices(ln, Prices(Flat(minWarmup)));
      CountIsReturns(ln, capacity, Flat(minWarmup));
      assert !WarmFlagAgrees(ln, capacity, minWarmup, Flat(minWarmup));
    }
  }
}
