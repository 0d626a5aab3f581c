/** The dearest pair until the next tick. From any state without a rebalance under way, fills can raise the pair cost
    exactly up to the sum of the two sides' peaks: each side's average now or when everything open has filled. */
module PeakCost {
  import opened Common
  import opened FillEngine
  import opened Position
  import opened Quoting
  import opened Lifecycle
  import opened Protocol
  import opened ProtocolRuns
  import opened PairCost
  import opened OpenRoom
  import opened FillingUp

  // ── One price a side ──

  /** The price at which the side's order fills, wherever that order is. */
  function MakerPrice(q: SideQuote, flight: seq<Op>): real {
    if q.order.Some? then q.order.value.price
    else if |flight| != 1 then 0.0
    else
      match flight[0]
      case Sent(PostOrder(_, price, _)) => RoundToTick(price, CENT)
      case Answered(OrderPosted(_, _, price, _, _)) => price
      case _ => 0.0
  }

  ghost function PriceOf(s: System, x: Side): real {
    MakerPrice(s.engine.quoter.At(x), Flight(s, Maker(x)))
  }

  lemma OnlyMakerPrice(q: SideQuote, flight: seq<Op>)
    ensures MakerPrices(q, flight) <= {MakerPrice(q, flight)}
  {
  }

  /** With no rebalance under way a side fills at one price only. */
  lemma OnePriceASide(s: System, x: Side)
    requires Inv(s) && !s.engine.pendingRebalance
    ensures OpenPrices(s, x) <= {PriceOf(s, x)}
  {
    OnlyMakerPrice(s.engine.quoter.At(x), Flight(s, Maker(x)));
    assert Flight(s, Taker) == [];
  }

  /** `r` is `t` with shares bought at `price`. */
  ghost predicate GrownAt(t: SideTotals, r: SideTotals, price: real) {
    r.shares >= t.shares && r.cost == t.cost + price * (r.shares - t.shares)
  }

  lemma GrowsOn(t: SideTotals, r: SideTotals, w: SideTotals, price: real)
    requires GrownAt(t, r, price) && GrownAt(r, w, price)
    ensures GrownAt(t, w, price)
  {
    assert price * (w.shares - t.shares) == price * (w.shares - r.shares) + price * (r.shares - t.shares);
  }

  lemma FillGrows(p: Totals, r: Totals, z: Side, v: real, x: Side, price: real)
    requires FilledAt(p, r, z, v) && (z == x ==> v == price)
    ensures GrownAt(p.At(x), r.At(x), price)
  {
    var size, taker, fee :| size > 0.0 && r == p.Record(z, v, size, taker, fee);
    if z == x {
      assert r.At(x).shares - p.At(x).shares == size;
    } else {
      assert r.At(x) == p.At(x);
    }
  }

  lemma OpenPricesStayAt(s: System, t: System, x: Side, price: real)
    requires OpenPrices(s, x) <= {price} && FewerPrices(s, t)
    ensures OpenPrices(t, x) <= {price}
  {
    assert OpenPrices(t, x) <= OpenPrices(s, x);
  }

  lemma OneOpenPrice(s: System, x: Side, price: real, v: real)
    requires OpenPrices(s, x) <= {price} && v in OpenPrices(s, x)
    ensures v == price
  {
  }

  lemma StepGrows(s: System, t: System, x: Side, price: real)
    requires OpenPrices(s, x) <= {price} && FillsOpenPrices(s, t)
    ensures OpenPrices(t, x) <= {price} && GrownAt(s.engine.position.At(x), t.engine.position.At(x), price)
  {
    OpenPricesStayAt(s, t, x, price);
    if t.engine.position != s.engine.position {
      var z, v :| v in OpenPrices(s, z) && FilledAt(s.engine.position, t.engine.position, z, v);
      if z == x {
        OneOpenPrice(s, x, price, v);
      }
      FillGrows(s.engine.position, t.engine.position, z, v, x, price);
    }
  }

  /** Until the next tick a side only buys at its price, and never beyond its reach. */
  lemma {:induction false} RunGrows(u: Setup, s: System, rest: seq<Action>, x: Side, price: real)
    requires Inv(s) && !s.engine.pendingRebalance && RunFrom(u, s, rest) && NoTicks(rest)
    requires OpenPrices(s, x) <= {price}
    ensures var t := After(u, s, rest);
            && GrownAt(s.engine.position.At(x), t.engine.position.At(x), price)
            && t.engine.Shares(x) <= Reach(s, x)
    decreases |rest|
  {
    if rest == [] {
      RoomNonNegative(s, x);
    } else {
      var a, t := rest[0], Next(u, s, rest[0]);
      StepFillsOpenPrices(u, s, a);
      StepGrows(s, t, x, price);
      StepShrinksReach(u, s, a, x);
      StepKeepsInv(u, s, a);
      OnlyTicksRebalance(u, s, a);
      RunGrows(u, t, rest[1..], x, price);
      GrowsOn(s.engine.position.At(x), t.engine.position.At(x), After(u, s, rest).engine.position.At(x), price);
    }
  }

  // ── Averages ──

  /** A side's totals with `more` shares bought at `price`. */
  function Bought(t: SideTotals, price: real, more: real): SideTotals {
    t.(shares := t.shares + more, cost := t.cost + price * more)
  }

  /** The highest average a side can come to. */
  ghost function Peak(s: System, x: Side): real {
    var t := s.engine.position.At(x);
    Max(Avg(t), Avg(Bought(t, PriceOf(s, x), Room(s, x))))
  }

  ghost function PeakPairCost(s: System): real {
    Peak(s, Yes) + Peak(s, No)
  }

  /** Costs on the way to a full fill lie between the costs at its ends. */
  lemma CostBetween(c: real, n: real, price: real, f: real, room: real, bound: real)
    requires 0.0 <= f <= room && 0.0 < room
    requires c <= bound * n && c + price * room <= bound * (n + room)
    ensures c + price * f <= bound * (n + f)
  {
    var left, full := bound * n - c, bound * (n + room) - (c + price * room);
    var slope := bound - price;
    assert full == left + slope * room;
    if slope < 0.0 {
      MulMono(f, room, -slope);
    } else {
      MulMono(0.0, f, slope);
    }
    assert bound * (n + f) - (c + price * f) == left + slope * f;
  }

  lemma AtMostBound(t: SideTotals, bound: real)
    requires Sound(t) && Avg(t) <= bound
    ensures t.cost <= bound * t.shares
  {
    AvgTimesShares(t);
    MulMono(Avg(t), bound, t.shares);
  }

  lemma AvgAtMost(t: SideTotals, bound: real)
    requires t.shares > 0.0 && t.cost <= bound * t.shares
    ensures Avg(t) <= bound
  {
    if bound < Avg(t) {
      QuotientMoreThan(t.cost, t.shares, bound);
    }
  }

  lemma BoughtIsSound(t: SideTotals, price: real, more: real)
    requires Sound(t) && more >= 0.0
    ensures Sound(Bought(t, price, more))
  {
  }

  /** Part of a fill moves the average no further than none or all of it. */
  lemma AverageBetween(t: SideTotals, price: real, f: real, room: real)
    requires Sound(t) && 0.0 <= f <= room
    ensures Avg(Bought(t, price, f)) <= Max(Avg(t), Avg(Bought(t, price, room)))
  {
    var bound := Max(Avg(t), Avg(Bought(t, price, room)));
    if 0.0 < f {
      BoughtIsSound(t, price, room);
      AtMostBound(t, bound);
      AtMostBound(Bought(t, price, room), bound);
      CostBetween(t.cost, t.shares, price, f, room, bound);
      AvgAtMost(Bought(t, price, f), bound);
    } else {
      assert Bought(t, price, f).cost == t.cost;
    }
  }

  lemma SameAverage(t: SideTotals, r: SideTotals, price: real)
    requires GrownAt(t, r, price)
    ensures Avg(r) == Avg(Bought(t, price, r.shares - t.shares))
  {
  }

  /** Whatever happens until the next tick, no side's average passes its peak. */
  lemma SideStaysBelowItsPeak(u: Setup, s: System, rest: seq<Action>, x: Side)
    requires Inv(s) && !s.engine.pendingRebalance && Sound(s.engine.position.At(x))
    requires RunFrom(u, s, rest) && NoTicks(rest)
    ensures Avg(After(u, s, rest).engine.position.At(x)) <= Peak(s, x)
  {
    OnePriceASide(s, x);
    RunGrows(u, s, rest, x, PriceOf(s, x));
    GrownStaysBelow(s, x, After(u, s, rest).engine.position.At(x));
  }

  lemma GrownStaysBelow(s: System, x: Side, r: SideTotals)
    requires Sound(s.engine.position.At(x)) && GrownAt(s.engine.position.At(x), r, PriceOf(s, x))
    requires r.shares <= Reach(s, x)
    ensures Avg(r) <= Peak(s, x)
  {
    var t := s.engine.position.At(x);
    SameAverage(t, r, PriceOf(s, x));
    AverageBetween(t, PriceOf(s, x), r.shares - t.shares, Room(s, x));
  }

  // ── Reaching the peak ──

  /** Filling the side with everything open would not raise its average. */
  ghost predicate FillingIsIdle(s: System, x: Side) {
    Peak(s, x) == Avg(s.engine.position.At(x))
  }

  /** A side whose fills would lower its average is not about to hear of one. */
  ghost predicate NothingForcedDown(s: System) {
    forall x :: FillingIsIdle(s, x) ==> Forced(s.engine.quoter.At(x), Flight(s, Maker(x))) == 0.0
  }

  lemma AimIsThePeak(s: System, r: SideTotals, x: Side, p: Plan)
    requires p.Fills(x) <==> !FillingIsIdle(s, x)
    requires !p.Fills(x) ==> Forced(s.engine.quoter.At(x), Flight(s, Maker(x))) == 0.0
    requires GrownAt(s.engine.position.At(x), r, PriceOf(s, x)) && r.shares == Aim(s, x, p)
    ensures Avg(r) == Peak(s, x)
  {
    var t := s.engine.position.At(x);
    SameAverage(t, r, PriceOf(s, x));
    if !p.Fills(x) {
      assert Bought(t, PriceOf(s, x), 0.0).cost == t.cost;
    }
  }

  lemma PeakIsReached(u: Setup, s: System) returns (rest: seq<Action>)
    requires Calm(s) && NothingForcedDown(s)
    ensures RunFrom(u, s, rest) && NoTicks(rest)
    ensures After(u, s, rest).engine.position.AvgPairCost() == PeakPairCost(s)
  {
    var p := Plan(!FillingIsIdle(s, Yes), !FillingIsIdle(s, No));
    rest := PlanIsCarriedOut(u, s, p);
    PlanReachesThePeak(u, s, rest, p, Yes);
    PlanReachesThePeak(u, s, rest, p, No);
  }

  lemma PlanReachesThePeak(u: Setup, s: System, rest: seq<Action>, p: Plan, x: Side)
    requires Calm(s) && NothingForcedDown(s) && CarriesOut(u, s, rest, p)
    requires p.Fills(x) <==> !FillingIsIdle(s, x)
    ensures Avg(After(u, s, rest).engine.position.At(x)) == Peak(s, x)
  {
    OnePriceASide(s, x);
    RunGrows(u, s, rest, x, PriceOf(s, x));
    assert x == Yes || x == No;
    AimIsThePeak(s, After(u, s, rest).engine.position.At(x), x, p);
  }

  // ── Sound positions ──

  ghost predicate SoundSides(p: Totals) {
    Sound(p.yes) && Sound(p.no)
  }

  lemma FilledStaysSound(p: Totals, r: Totals, x: Side, price: real)
    requires SoundSides(p) && FilledAt(p, r, x, price)
    ensures SoundSides(r)
  {
  }

  lemma FillingStaysSound(s: System, t: System)
    requires SoundSides(s.engine.position) && FillsOpenPrices(s, t)
    ensures SoundSides(t.engine.position)
  {
    if t.engine.position != s.engine.position {
      var x, price :| price in OpenPrices(s, x) && FilledAt(s.engine.position, t.engine.position, x, price);
      FilledStaysSound(s.engine.position, t.engine.position, x, price);
    }
  }

  lemma {:induction false} RunStaysSound(u: Setup, s: System, run: seq<Action>)
    requires Inv(s) && SoundSides(s.engine.position) && RunFrom(u, s, run)
    ensures Inv(After(u, s, run)) && SoundSides(After(u, s, run).engine.position)
    decreases |run|
  {
    if run != [] {
      var a := run[0];
      if a.Tick? {
        var now, later := TickEngineSends(u, s, a.input);
      } else {
        StepFillsOpenPrices(u, s, a);
        FillingStaysSound(s, Next(u, s, a));
      }
      StepKeepsInv(u, s, a);
      RunStaysSound(u, Next(u, s, a), run[1..]);
    }
  }

  lemma ReachedSound(u: Setup, run: seq<Action>)
    requires RunFrom(u, START, run)
    ensures Inv(After(u, START, run)) && SoundSides(After(u, START, run).engine.position)
  {
    StartInv();
    RunStaysSound(u, START, run);
  }

  // ── The dearest pair until the next tick ──

  /** Whatever happens until the next tick, pairs cost less than a dollar. */
  ghost predicate CheapUntilTheNextTick(u: Setup, s: System) {
    forall rest :: RunFrom(u, s, rest) && NoTicks(rest) ==> After(u, s, rest).engine.position.AvgPairCost() < 1.0
  }

  lemma PairsStayBelowThePeaks(u: Setup, s: System, rest: seq<Action>)
    requires Calm(s) && SoundSides(s.engine.position) && RunFrom(u, s, rest) && NoTicks(rest)
    ensures After(u, s, rest).engine.position.AvgPairCost() <= PeakPairCost(s)
  {
    SideStaysBelowItsPeak(u, s, rest, Yes);
    SideStaysBelowItsPeak(u, s, rest, No);
  }

  lemma CalmIsCheapExactlyBelowThePeaks(u: Setup, s: System)
    requires Calm(s) && SoundSides(s.engine.position)
    ensures PeakPairCost(s) < 1.0 ==> CheapUntilTheNextTick(u, s)
    ensures NothingForcedDown(s) && CheapUntilTheNextTick(u, s) ==> PeakPairCost(s) < 1.0
  {
    forall rest | RunFrom(u, s, rest) && NoTicks(rest)
      ensures After(u, s, rest).engine.position.AvgPairCost() <= PeakPairCost(s)
    {
      PairsStayBelowThePeaks(u, s, rest);
    }
    if NothingForcedDown(s) {
      var rest := PeakIsReached(u, s);
    }
  }

  /** In every reachable state without a rebalance under way the pair cost stays, until the next tick, within the sum
      of the two peaks; it reaches that sum, unless a fill that lowers an average is already on its way. */
  lemma PeaksAreTheHighestPairCost(u: Setup, run: seq<Action>)
    requires RunFrom(u, START, run) && !After(u, START, run).engine.pendingRebalance
    ensures var s := After(u, START, run);
            && (forall rest :: RunFrom(u, s, rest) && NoTicks(rest) ==>
                  After(u, s, rest).engine.position.AvgPairCost() <= PeakPairCost(s))
            && (NothingForcedDown(s) ==>
                  exists rest :: RunFrom(u, s, rest) && NoTicks(rest)
                              && After(u, s, rest).engine.position.AvgPairCost() == PeakPairCost(s))
  {
    var s := After(u, START, run);
    ReachedSound(u, run);
    forall rest | RunFrom(u, s, rest) && NoTicks(rest)
      ensures After(u, s, rest).engine.position.AvgPairCost() <= PeakPairCost(s)
    {
      PairsStayBelowThePeaks(u, s, rest);
    }
    if NothingForcedDown(s) {
      var rest := PeakIsReached(u, s);
    }
  }
}
