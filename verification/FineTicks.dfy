/** Ticks finer than a cent: the executor rounds prices to whole cents after the engine's guards have passed them,
    and for every such tick some admitted price is lifted to a dollar a pair. */
module FineTicks {
  import opened Common
  import opened FillEngine
  import opened Position
  import opened Quoting
  import opened Orders
  import opened Strategy
  import opened Executor
  import opened Lifecycle
  import opened QuoteContract
  import opened QuietTicks
  import opened PairCost

  /** The price of the order that the executor reports as resting. */
  function PlacedPrice(c: Command): real
    requires c.PostOrder?
  {
    ReplyToPost(true, c.side, c.price, c.size, PostResting(0)).price
  }

  /** On a grid of this tick, every order a tick posts is placed at a price that keeps pairs below a dollar. */
  ghost predicate PlacedAffordably(tick: real) {
    forall cfg, e: EngineState, m: TickInput, c ::
      Prudent(cfg) && CheapPairs(e.position) && m.tick == tick && c in TickCommands(cfg, e, m) && c.PostOrder? ==>
        Affordable(e.position, c.side, PlacedPrice(c))
  }

  lemma WholeCentsPlaceAffordably(cfg: Config, e: EngineState, m: TickInput, c: Command)
    requires Prudent(cfg) && CheapPairs(e.position) && WholeCents(m)
    requires c in TickCommands(cfg, e, m) && c.PostOrder?
    ensures Affordable(e.position, c.side, PlacedPrice(c))
  {
    TickShares(cfg, e, m);
    SharedIsAffordable(cfg, e, m, TickCommands(cfg, e, m), c);
  }

  lemma SharedIsAffordable(cfg: Config, e: EngineState, m: TickInput, commands: seq<Command>, c: Command)
    requires Prudent(cfg) && CheapPairs(e.position) && WholeCents(m)
    requires Shares(cfg, e, m, commands) && c in commands && c.PostOrder?
    ensures Affordable(e.position, c.side, PlacedPrice(c))
  {
    CommandInItsSlot(commands, c);
    assert SideShareOf(cfg, e, m, c.side, CommandsOf(commands, Maker(c.side)));
    GuardedPostIsAffordable(cfg, e, m, c.side, c.price, c.size);
  }

  // ── A price that is rounded up ──

  lemma OneStepMore(k: int, step: real)
    ensures Ticks(k, step) == Ticks(k - 1, step) + step
  {
    assert k as real == (k - 1) as real + 1.0;
    assert ((k - 1) as real + 1.0) * step == (k - 1) as real * step + 1.0 * step;
  }

  lemma Ceiling(q: real) returns (k: int)
    ensures q <= k as real < q + 1.0
  {
    k := if q.Floor as real == q then q.Floor else q.Floor + 1;
  }

  /** First whole multiple of `step` at or above `goal`. */
  lemma FirstMultiple(step: real, goal: real) returns (k: int)
    requires 0.0 < step
    ensures goal <= Ticks(k, step)
    ensures Ticks(k, step) < goal + step
  {
    k := Ceiling(goal / step);
    QuotientAtMost(goal, step, k as real);
    QuotientMoreThan(goal, step, (k - 1) as real);
    OneStepMore(k, step);
  }

  /** First whole multiple of `step` above `goal`. */
  lemma NextMultiple(step: real, goal: real) returns (k: int)
    requires 0.0 < step
    ensures goal < Ticks(k, step)
    ensures Ticks(k, step) <= goal + step
  {
    k := FirstMultiple(step, goal);
    if Ticks(k, step) == goal {
      k := k + 1;
      OneStepMore(k, step);
    }
  }

  /** A price of `x` cents, between two and forty, that rounding to whole cents lifts. */
  ghost predicate Lifted(x: real) {
    2.0 <= x <= 40.0 && x < RoundHalfEven(x) as real <= 40.0
  }

  lemma LiftedTo(x: real, n: int)
    requires 2 < n <= 40
    requires n as real - 0.5 < x < n as real || (x == n as real - 0.5 && n % 2 == 0)
    ensures Lifted(x)
  {
    assert x.Floor == n - 1;
  }

  ghost predicate ALittleOverFive(k: int, s: real) {
    5.0 < Ticks(k, s) <= 5.0 + s
  }

  lemma StepsToFive(k: int, s: real)
    requires 1.0 <= 6.0 * s && s < 0.5 && ALittleOverFive(k, s)
    ensures 10 < k <= 33
  {
    if k <= 10 {
      MulMono(k as real, 10.0, s);
      assert false;
    }
    if 34 <= k {
      MulMono(34.0, k as real, s);
      assert false;
    }
  }

  lemma Shortfall(k: int, s: real)
    ensures Ticks(k, 1.0 - s) == k as real - Ticks(k, s)
  {
  }

  /** `k` steps of `1 - s` fall short of `k` by a little more than five. */
  lemma ShortByFive(k: int, s: real)
    requires 1.0 <= 6.0 * s && s < 0.5 && ALittleOverFive(k, s)
    ensures Lifted(Ticks(k, 1.0 - s))
  {
    StepsToFive(k, s);
    Shortfall(k, s);
    LiftedTo(Ticks(k, 1.0 - s), k - 5);
  }

  /** Some multiple of any fraction `r` of a cent is lifted. */
  lemma SomeMultipleIsLifted(r: real) returns (k: int)
    requires 0.0 < r < 1.0
    ensures Lifted(Ticks(k, r))
  {
    if r <= 0.5 {
      k := FirstMultiple(r, 19.5);
      LiftedTo(Ticks(k, r), 20);
    } else if 6.0 * r > 5.0 {
      k := 3;
      LiftedTo(Ticks(3, r), 3);
    } else {
      var s := 1.0 - r;
      k := NextMultiple(s, 5.0);
      ShortByFive(k, s);
      assert r == 1.0 - s;
    }
  }

  // ── An engine that posts it ──

  /** One share of NO, bought so dear that a pair with YES at `ceiling` would cost a dollar. */
  ghost function Holding(ceiling: real): Totals {
    Totals(FLAT, SideTotals(1.0, 1.0 - ceiling, 0.0, 0.0, 1))
  }

  ghost function Desk(): Config {
    Config(QuotingConfig(0.0, 0.2, 100.0, 5.0, 0.98, 1), RiskConfig(20.0, 10.0, 10.0, 0.97, 1000, 3, 2.0, 1.0), 0.1)
  }

  ghost function Engine(ceiling: real): EngineState {
    EngineState(Holding(ceiling), QuoterState(IDLE, IDLE), false, [], false, false, true, 0, Some(Book(0, None)), None)
  }

  /** An even fair value, and an edge that aims at `price`. */
  ghost function Aiming(price: real, tick: real): TickInput {
    TickInput(0, true, false, true, true, false, true, 0.5, 0.5 - price, 0.0, 300000, tick, SILENT)
  }

  lemma EvenZone(price: real, tick: real)
    ensures ZoneMax(Desk(), Aiming(price, tick)) == 0.98
  {
    assert TickRisk(Desk(), Aiming(price, tick)) == 0.0;
  }

  lemma HoldingAverage(ceiling: real)
    requires 0.0 < ceiling <= 0.4
    ensures Avg(Holding(ceiling).no) == 1.0 - ceiling && Avg(Holding(ceiling).yes) == 0.0
    ensures CheapPairs(Holding(ceiling))
  {
    AvgOfOnePrice(Holding(ceiling).no, 1.0 - ceiling);
  }

  lemma AimIsTheTarget(k: int, tick: real)
    requires tick > 0.0 && 0.02 <= Ticks(k, tick)
    ensures Target(Aiming(Ticks(k, tick), tick), Yes) == Ticks(k, tick)
  {
    GridPriceIsKept(k, tick);
  }

  lemma AimIsPosted(k: int, tick: real, ceiling: real)
    requires tick > 0.0 && 0.02 <= Ticks(k, tick) < ceiling <= 0.4
    ensures PostOrder(Yes, Ticks(k, tick), 100.0) in TickCommands(Desk(), Engine(ceiling), Aiming(Ticks(k, tick), tick))
  {
    var price, cfg, e := Ticks(k, tick), Desk(), Engine(ceiling);
    var m := Aiming(price, tick);
    EvenZone(price, tick);
    AimIsTheTarget(k, tick);
    HoldingAverage(ceiling);
    assert Postable(cfg, e, m, Yes);
    FirstPost(cfg, e, m, Yes, price);
    assert Quiet(cfg, e, m) && !RebalanceWanted(cfg, e);
    PostingTick(cfg, e, m, Yes, price, 100.0);
  }

  /** Cents of a price on a fine grid. */
  lemma InCentsOf(k: int, tick: real)
    ensures Ticks(k, tick) / CENT == Ticks(k, tick * 100.0)
    ensures RoundToTick(Ticks(k, tick), CENT) == RoundHalfEven(Ticks(k, tick * 100.0)) as real * CENT
  {
    assert k as real * (tick * 100.0) == k as real * tick * 100.0;
  }

  /** On every finer grid some price is lifted. */
  lemma SomePriceIsLifted(tick: real) returns (k: int, ceiling: real)
    requires 0.0 < tick < CENT
    ensures 0.02 <= Ticks(k, tick) < ceiling <= 0.4 && ceiling == RoundToTick(Ticks(k, tick), CENT)
  {
    k := SomeMultipleIsLifted(tick * 100.0);
    InCentsOf(k, tick);
    ceiling := RoundToTick(Ticks(k, tick), CENT);
  }

  /** It is admitted next to a holding it just fits, and lifted out of that fit. */
  lemma LiftedPriceIsDear(k: int, tick: real, ceiling: real)
    requires 0.0 < tick && 0.02 <= Ticks(k, tick) < ceiling <= 0.4 && ceiling == RoundToTick(Ticks(k, tick), CENT)
    ensures !PlacedAffordably(tick)
  {
    var c := PostOrder(Yes, Ticks(k, tick), 100.0);
    AimIsPosted(k, tick, ceiling);
    HoldingAverage(ceiling);
    assert !Affordable(Engine(ceiling).position, Yes, PlacedPrice(c));
    assert Prudent(Desk());
  }

  lemma OnlyTheCent(tick: real)
    requires 0.0 < tick <= CENT
    ensures OnGrid(tick, CENT) <==> tick == CENT
  {
    if OnGrid(tick, CENT) {
      var k :| tick == Ticks(k, CENT);
    }
    assert CENT == Ticks(1, CENT);
  }

  /** Of all ticks up to a cent, exactly the whole cent lets the executor place every order at a price that keeps
      pairs below a dollar. */
  lemma OrdersArePlacedAffordablyExactlyOnWholeCents(tick: real)
    requires 0.0 < tick <= CENT
    ensures PlacedAffordably(tick) <==> OnGrid(tick, CENT)
  {
    OnlyTheCent(tick);
    if tick == CENT {
      forall cfg, e: EngineState, m: TickInput, c |
        Prudent(cfg) && CheapPairs(e.position) && m.tick == tick && c in TickCommands(cfg, e, m) && c.PostOrder?
        ensures Affordable(e.position, c.side, PlacedPrice(c))
      {
        WholeCentsPlaceAffordably(cfg, e, m, c);
      }
    } else {
      var k, ceiling := SomePriceIsLifted(tick);
      LiftedPriceIsDear(k, tick, ceiling);
    }
  }
}
