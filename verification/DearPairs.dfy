/** Runs of the whole system that end with a pair costing a dollar or more: one because two maker orders were open
    together, one because the rebalance limit is a dollar or more. */
module DearPairs {
  import opened Common
  import opened FillEngine
  import opened Position
  import opened Quoting
  import opened Orders
  import opened Strategy
  import opened Executor
  import opened Lifecycle
  import opened QuietTicks
  import opened Episodes
  import FokSize

  // ── Two makers ──

  /** Both sides have posted, one tick after the other, before the executor has placed anything. */
  ghost function BothPosted(cfg: Config): System {
    Posted(cfg, Seen(Posted(cfg, Seen(Ready(), Yes, None), Yes), No, None), No)
  }

  ghost function BothRest(cfg: Config): System {
    Resting(Resting(BothPosted(cfg), Yes, 0.5, Placed(cfg), Favouring(Yes)), No, 0.5, Placed(cfg), Favouring(No))
  }

  lemma BothSidesPost(u: Setup)
    requires Trades(u.cfg)
    ensures Reached(u, BothPosted(u.cfg))
  {
    GetsReady(u);
    SeesBook(u, Ready(), Yes, None);
    PostsHalf(u, Seen(Ready(), Yes, None), Yes);
    SeesBook(u, Posted(u.cfg, Seen(Ready(), Yes, None), Yes), No, None);
    PostsHalf(u, Seen(Posted(u.cfg, Seen(Ready(), Yes, None), Yes), No, None), No);
  }

  lemma BothOrdersRest(u: Setup)
    requires Trades(u.cfg)
    ensures Reached(u, BothRest(u.cfg))
  {
    var s, n := BothPosted(u.cfg), u.cfg.quoting.maxOrderSize;
    BothSidesPost(u);
    assert s.commands == [Half(Yes, n), Half(No, n)];
    HalfIsTheTarget(Yes);
    SomethingIsPlaced(u.cfg);
    PostRests(u, s, Yes, 0.5, n, Favouring(Yes));
    PostRests(u, Resting(s, Yes, 0.5, Placed(u.cfg), Favouring(Yes)), No, 0.5, n, Favouring(No));
  }

  lemma BothRestState(cfg: Config)
    requires Trades(cfg)
    ensures var s := BothRest(cfg);
            && s.engine.position == EMPTY
            && Untouched(s, Yes, OrderOf(cfg, Yes, 0)) && Untouched(s, No, OrderOf(cfg, No, 1))
  {
    SomethingIsPlaced(cfg);
  }

  /** Both fill. */
  ghost function BothFilled(cfg: Config): System
    requires Trades(cfg)
  {
    BothRestState(cfg);
    Filled(Filled(BothRest(cfg), Yes, OrderOf(cfg, Yes, 0)), No, OrderOf(cfg, No, 1))
  }

  lemma BothOrdersFill(u: Setup)
    requires Trades(u.cfg)
    ensures Reached(u, BothFilled(u.cfg))
  {
    var s := BothRest(u.cfg);
    BothRestState(u.cfg);
    BothOrdersRest(u);
    FillLeavesTheOther(s, Yes, OrderOf(u.cfg, Yes, 0), OrderOf(u.cfg, No, 1));
    OrderFills(u, s, Yes, OrderOf(u.cfg, Yes, 0));
    OrderFills(u, Filled(s, Yes, OrderOf(u.cfg, Yes, 0)), No, OrderOf(u.cfg, No, 1));
  }

  lemma BothFilledCost(cfg: Config)
    requires Trades(cfg)
    ensures BothFilled(cfg).engine.position.AvgPairCost() == 1.0
  {
    BothRestState(cfg);
    SomethingIsPlaced(cfg);
    var p, n := BothFilled(cfg).engine.position, Placed(cfg);
    assert p == EMPTY.Record(Yes, 0.5, n, false, 0.0).Record(No, 0.5, n, false, 0.0);
    AvgOfOnePrice(p.yes, 0.5);
    AvgOfOnePrice(p.no, 0.5);
  }

  /** Whatever the rebalance limit and the requote threshold: orders that are under way together on both sides can
      make a pair cost a dollar. */
  lemma OrdersOpenTogetherCanCostADollar(u: Setup)
    requires Trades(u.cfg)
    ensures exists run :: RunFrom(u, START, run) && Ordinary(u, run)
                       && After(u, START, run).engine.position.AvgPairCost() >= 1.0
  {
    BothOrdersFill(u);
    BothFilledCost(u.cfg);
  }

  // ── A maker and a rebalance ──

  /** NO is bought at fifty cents; then YES is on offer. */
  ghost function OneRests(cfg: Config): System {
    Resting(Posted(cfg, Seen(Ready(), No, None), No), No, 0.5, Placed(cfg), Favouring(No))
  }

  lemma OneRestsState(cfg: Config)
    requires Trades(cfg)
    ensures Untouched(OneRests(cfg), No, OrderOf(cfg, No, 0))
  {
    SomethingIsPlaced(cfg);
  }

  ghost function OneFilled(cfg: Config, ask: real): System
    requires Trades(cfg)
  {
    OneRestsState(cfg);
    Seen(Filled(OneRests(cfg), No, OrderOf(cfg, No, 0)), Yes, Some(ask))
  }

  lemma OneOrderFills(u: Setup, ask: real)
    requires Trades(u.cfg)
    ensures Reached(u, OneFilled(u.cfg, ask))
  {
    var s, n := Posted(u.cfg, Seen(Ready(), No, None), No), u.cfg.quoting.maxOrderSize;
    GetsReady(u);
    SeesBook(u, Ready(), No, None);
    PostsHalf(u, Seen(Ready(), No, None), No);
    HalfIsTheTarget(No);
    SomethingIsPlaced(u.cfg);
    PostRests(u, s, No, 0.5, n, Favouring(No));
    OneRestsState(u.cfg);
    OrderFills(u, OneRests(u.cfg), No, OrderOf(u.cfg, No, 0));
    SeesBook(u, Filled(OneRests(u.cfg), No, OrderOf(u.cfg, No, 0)), Yes, Some(ask));
  }

  /** An engine that holds `n` shares of NO at fifty cents, has nothing open and sees YES on offer. */
  ghost predicate HoldsNo(e: EngineState, n: real, ask: real) {
    && !e.paused && e.heartbeatHealthy && !e.guardActive && !e.pendingRebalance
    && e.position == EMPTY.Record(No, 0.5, n, false, 0.0)
    && e.yesBook == Some(Book(0, Some(ask))) && e.noBook == Some(Book(0, None))
    && e.quoter.yes.order.None? && !e.quoter.yes.Pending()
    && e.quoter.no.order.None? && !e.quoter.no.Pending()
  }

  lemma OneFilledState(cfg: Config, ask: real)
    requires Trades(cfg)
    ensures var s := OneFilled(cfg, ask);
            && HoldsNo(s.engine, Placed(cfg), ask)
            && s.commands == [] && s.feedback == [] && s.cachesWarm
  {
    OneRestsState(cfg);
  }

  /** What the run asks of the limits: one order is imbalance enough, and the guard admits the ask. */
  predicate LetsThrough(cfg: Config, ask: real) {
    && cfg.risk.maxUnpairedShares <= Placed(cfg) && 0.0 < cfg.risk.rebalanceThreshold <= Placed(cfg)
    && 0.5 <= ask < 1.0 && 0.5 + ask <= cfg.risk.rebalanceMaxPairCost
  }

  /** The lagging side is left to the rebalance, the other side is too far ahead. */
  lemma BothSidesHold(cfg: Config, e: EngineState, m: TickInput, ask: real)
    requires Trades(cfg) && LetsThrough(cfg, ask) && HoldsNo(e, Placed(cfg), ask)
    ensures DecisionOn(cfg, e, m, Yes) == Hold && DecisionOn(cfg, e, m, No) == Hold
  {
    SomethingIsPlaced(cfg);
    assert Lagging(e, Yes) && TakerWillHandle(cfg, e);
    assert e.position.Unpaired(No) == Placed(cfg);
  }

  lemma YesIsWanted(cfg: Config, e: EngineState, ask: real)
    requires Trades(cfg) && LetsThrough(cfg, ask) && HoldsNo(e, Placed(cfg), ask)
    ensures RebalanceWanted(cfg, e) && RebalanceSide(e) == Yes
  {
    SomethingIsPlaced(cfg);
    AvgOfOnePrice(e.position.no, 0.5);
    assert RebalanceSide(e) == Yes;
    MulMono(CLOB_MIN, RebalanceSize(cfg, e), 0.5);
    MulMono(0.5, ask, RebalanceSize(cfg, e));
  }

  lemma RebalanceIsSent(cfg: Config, e: EngineState, ask: real)
    requires Trades(cfg) && LetsThrough(cfg, ask) && HoldsNo(e, Placed(cfg), ask)
    ensures QuoteTick(cfg, e, Now(0.5))
         == (e.(pendingRebalance := true), [RebalanceTaker(Yes, ask, RebalanceSize(cfg, e))])
  {
    NearEvenZone(cfg, 0.5);
    BothSidesHold(cfg, e, Now(0.5), ask);
    YesIsWanted(cfg, e, ask);
    assert Quiet(cfg, e, Now(0.5));
    RebalancingTick(cfg, e, Now(0.5));
  }

  ghost function Wanted(cfg: Config, ask: real): Command
    requires Trades(cfg)
  {
    RebalanceTaker(Yes, ask, RebalanceSize(cfg, OneFilled(cfg, ask).engine))
  }

  ghost function Rebalancing(cfg: Config, ask: real): System
    requires Trades(cfg)
  {
    var s := OneFilled(cfg, ask);
    s.(engine := s.engine.(pendingRebalance := true), commands := [Wanted(cfg, ask)])
  }

  lemma RebalanceUnderWay(u: Setup, ask: real)
    requires Trades(u.cfg) && LetsThrough(u.cfg, ask)
    ensures Reached(u, Rebalancing(u.cfg, ask))
  {
    OneOrderFills(u, ask);
    OneFilledState(u.cfg, ask);
    RebalanceIsSent(u.cfg, OneFilled(u.cfg, ask).engine, ask);
    TickIsInCents(0.5);
    OneTick(u, OneFilled(u.cfg, ask), Now(0.5), Rebalancing(u.cfg, ask).engine, [Wanted(u.cfg, ask)]);
    assert [] + [Wanted(u.cfg, ask)] == [Wanted(u.cfg, ask)];
  }

  /** The exchange fills all that was sent. */
  lemma SomethingIsBought(u: Setup, c: Command, cents: nat) returns (taken: real)
    requires c.RebalanceTaker? && c.size > 0.0 && c.price == Ticks(cents, CENT) && 0 < cents && u.scale == 100
    ensures taken > 0.0
    ensures ReplyToRebalance(true, c.side, c.price, c.size, u.scale, TakerDone(true, c.size))
         == RebalanceResult(c.side, true, taken, c.price)
    ensures PriceUnits(c.price, u.scale) == cents
  {
    assert c.price * u.scale as real == cents as real;
    FokSize.SafeSizeNeverZero(cents, u.scale, u.scale, c.size);
    taken := Min(c.size, SafeShares(c.price, c.size, u.scale));
  }

  lemma RebalanceCanBeAnswered(u: Setup, s: System, cents: nat)
    requires u.scale == 100 && s.commands != [] && s.commands[0].RebalanceTaker? && s.commands[0].size > 0.0
    requires s.commands[0].price == Ticks(cents, CENT) && PriceUnits(s.commands[0].price, u.scale) == cents
    ensures Enabled(u, s, ExecRebalance(TakerDone(true, s.commands[0].size)))
  {
    assert s.commands[0].price * u.scale as real == cents as real;
  }

  /** A filled rebalance that the engine has not heard of. */
  ghost function Unheralded(cfg: Config, ask: real, taken: real): System
    requires Trades(cfg)
  {
    Rebalancing(cfg, ask).(commands := [], feedback := [RebalanceResult(Yes, true, taken, ask)])
  }

  lemma RebalanceIsAnswered(u: Setup, cents: nat) returns (taken: real)
    requires Trades(u.cfg) && LetsThrough(u.cfg, Ticks(cents, CENT)) && u.scale == 100
    ensures taken > 0.0 && Reached(u, Unheralded(u.cfg, Ticks(cents, CENT), taken))
  {
    var ask := Ticks(cents, CENT);
    var s, c := Rebalancing(u.cfg, ask), Wanted(u.cfg, ask);
    RebalanceUnderWay(u, ask);
    OneFilledState(u.cfg, ask);
    taken := SomethingIsBought(u, c, cents);
    RebalanceCanBeAnswered(u, s, cents);
    RebalanceAnswered(u, s, c, TakerDone(true, c.size));
  }

  lemma BoughtDear(s: System, n: real, ask: real, taken: real, fvYes: real)
    requires s.engine.position == EMPTY.Record(No, 0.5, n, false, 0.0) && n > 0.0 && taken > 0.0
    requires s.feedback == [RebalanceResult(Yes, true, taken, ask)]
    ensures DeliverStep(s, fvYes).engine.position.AvgPairCost() == 0.5 + ask
  {
    RebalanceBooked(s, Yes, taken, ask, fvYes);
    var p := DeliverStep(s, fvYes).engine.position;
    AvgOfOnePrice(p.yes, ask);
    AvgOfOnePrice(p.no, 0.5);
  }

  /** With a rebalance limit of a dollar or more, as the shipped 1.01, a rebalance at any ask the limit lets through
      completes a pair at a dollar or more, without any two orders open together. */
  lemma RebalanceCanCostADollar(u: Setup, cents: nat)
    requires Trades(u.cfg) && LetsThrough(u.cfg, Ticks(cents, CENT)) && u.scale == 100
    ensures exists run :: RunFrom(u, START, run) && Ordinary(u, run)
                       && After(u, START, run).engine.position.AvgPairCost() == 0.5 + Ticks(cents, CENT)
  {
    var ask := Ticks(cents, CENT);
    var taken := RebalanceIsAnswered(u, cents);
    var s := Unheralded(u.cfg, ask, taken);
    OneFilledState(u.cfg, ask);
    SomethingIsPlaced(u.cfg);
    BoughtDear(s, Placed(u.cfg), ask, taken, 0.5);
    OneMore(u, s, Deliver(0.5));
  }

  // ── The shipped configuration ──

  const SHIPPED := Config(QuotingConfig(0.045, 0.0, 15.0, 5.0, 0.8, 3),
                          RiskConfig(3.0, 3.0, 30.0, 1.01, 850, 5, 1.0, 0.05), 0.08)

  /** With the values of `config.toml` a run ends with a pair that costs 1.01. */
  lemma ShippedConfigurationCostsADollar(u: Setup)
    requires u == Setup(SHIPPED, 100)
    ensures exists run :: RunFrom(u, START, run) && Ordinary(u, run)
                       && After(u, START, run).engine.position.AvgPairCost() == 1.01
  {
    assert Placed(u.cfg) == 15.0;
    assert Ticks(51, CENT) == 0.51;
    RebalanceCanCostADollar(u, 51);
  }
}
