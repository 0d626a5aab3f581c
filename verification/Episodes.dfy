/** Building runs of the whole system, episode by episode: the market opens, a side posts and rests, an order fills,
    a rebalance is answered. */
module Episodes {
  import opened Common
  import opened FillEngine
  import opened Position
  import opened Quoting
  import opened Orders
  import opened Strategy
  import opened Executor
  import opened Lifecycle
  import opened QuietTicks
  import opened PairCost
  import opened Drain
  import Protocol

  // ── Building a run ──

  /** Some run on a whole-cent market with reliable cancels ends in `s`. */
  ghost predicate Reached(u: Setup, s: System) {
    exists run :: RunFrom(u, START, run) && Ordinary(u, run) && After(u, START, run) == s
  }

  ghost predicate Ordinary(u: Setup, run: seq<Action>)
    requires RunFrom(u, START, run)
  {
    InCents(run) && ReliableRun(u, START, run)
  }

  lemma {:induction false} RunAppend(u: Setup, s: System, run: seq<Action>, a: Action)
    requires RunFrom(u, s, run) && Enabled(u, After(u, s, run), a)
    ensures RunFrom(u, s, run + [a]) && After(u, s, run + [a]) == Next(u, After(u, s, run), a)
    ensures ReliableRun(u, s, run) && ReliableAction(After(u, s, run), a) ==> ReliableRun(u, s, run + [a])
    decreases |run|
  {
    if run == [] {
      assert [] + [a] == [a] && [a][1..] == [];
    } else {
      assert (run + [a])[1..] == run[1..] + [a];
      RunAppend(u, Next(u, s, run[0]), run[1..], a);
    }
  }

  lemma OneMore(u: Setup, s: System, a: Action)
    requires Reached(u, s) && Enabled(u, s, a) && WholeCentAction(a) && !a.ExecCancel?
    ensures Reached(u, Next(u, s, a))
  {
    var run :| RunFrom(u, START, run) && Ordinary(u, run) && After(u, START, run) == s;
    RunAppend(u, START, run, a);
    forall b | b in run + [a] ensures WholeCentAction(b) {
      assert b in run || b == a;
    }
  }

  lemma StartReached(u: Setup)
    ensures Reached(u, START)
  {
    assert RunFrom(u, START, []) && Ordinary(u, []);
  }

  // ── Episodes ──

  /** The market is ready: nothing is open, the executor is warm. */
  ghost function Ready(): System {
    START.(engine := START.engine.(pending := []), cachesWarm := true)
  }

  lemma GetsReady(u: Setup)
    ensures Reached(u, Ready())
  {
    StartReached(u);
    OneMore(u, START, Flush);
    var s := FlushStep(START);
    assert s.commands == [MarketRotation];
    OneMore(u, s, ExecRotation(true));
    assert Next(u, s, ExecRotation(true)) == Ready();
  }

  function Seen(s: System, x: Side, ask: Option<real>): System {
    s.(engine := s.engine.WithBook(x, Some(Book(0, ask))))
  }

  lemma SeesBook(u: Setup, s: System, x: Side, ask: Option<real>)
    requires Reached(u, s)
    ensures Reached(u, Seen(s, x, ask))
  {
    OneMore(u, s, BookUpdate(x, Book(0, ask)));
  }

  lemma TickStepIs(u: Setup, s: System, m: TickInput, f: EngineState, sent: seq<Command>)
    requires QuoteTick(u.cfg, s.engine, m) == (f, sent)
    ensures TickStep(u, s, m) == s.(engine := f, commands := s.commands + sent)
  {
  }

  lemma OneTick(u: Setup, s: System, m: TickInput, f: EngineState, sent: seq<Command>)
    requires Reached(u, s) && WholeCentAction(Tick(m)) && QuoteTick(u.cfg, s.engine, m) == (f, sent)
    ensures Reached(u, s.(engine := f, commands := s.commands + sent))
  {
    TickStepIs(u, s, m, f, sent);
    OneMore(u, s, Tick(m));
  }

  /** The executor answers a rebalance, the only message under way. */
  lemma RebalanceAnswered(u: Setup, s: System, c: Command, r: TakerResponse)
    requires Reached(u, s) && s.commands == [c] && s.feedback == [] && c.RebalanceTaker?
    requires Enabled(u, s, ExecRebalance(r))
    ensures var f := ReplyToRebalance(s.cachesWarm, c.side, c.price, c.size, u.scale, r);
            Reached(u, s.(commands := [], feedback := [f]))
  {
    OneMore(u, s, ExecRebalance(r));
    var f := ReplyToRebalance(s.cachesWarm, c.side, c.price, c.size, u.scale, r);
    assert s.commands[1..] == [] && [] + [f] == [f];
  }

  lemma RebalanceBooked(s: System, x: Side, taken: real, price: real, fvYes: real)
    requires s.feedback == [RebalanceResult(x, true, taken, price)] && taken > 0.0
    ensures DeliverStep(s, fvYes).engine.position
         == s.engine.position.Record(x, price, taken, true, TakerFee(price, taken))
  {
  }

  /** The executor has placed the oldest post. */
  function Accepted(s: System, x: Side, price: real, size: real): System
    requires s.commands != []
  {
    s.(commands := s.commands[1..], feedback := [OrderPosted(x, |s.accounts|, price, size, false)],
       accounts := s.accounts + [Account(x, price, size, 0.0, true, 0.0)])
  }

  function Resting(s: System, x: Side, price: real, size: real, fvYes: real): System
    requires s.commands != []
  {
    var e := s.engine;
    var o := ManagedOrder(|s.accounts|, price, size, FairValue(fvYes, x), BestAskOrOne(e.BookOf(x)), 0.0);
    s.(engine := e.(quoter := e.quoter.With(x, e.quoter.At(x).Posted(o))), commands := s.commands[1..],
       accounts := s.accounts + [Account(x, price, size, 0.0, true, 0.0)])
  }

  /** The oldest command is a post of a whole-cent price, and there is an executor to place it. */
  ghost predicate Placeable(s: System, x: Side, price: real, size: real) {
    && s.commands != [] && s.commands[0] == PostOrder(x, price, size) && s.feedback == [] && s.cachesWarm
    && RoundToTick(price, CENT) == price && TruncateToCents(size) > 0.0
  }

  lemma PostIsAccepted(s: System, x: Side, price: real, size: real)
    requires Placeable(s, x, price, size)
    ensures PostStep(s, PostResting(|s.accounts|)) == Accepted(s, x, price, TruncateToCents(size))
  {
  }

  lemma AcceptedRests(s: System, x: Side, price: real, size: real, fvYes: real)
    requires s.feedback == [] && s.commands != []
    ensures DeliverStep(Accepted(s, x, price, size), fvYes) == Resting(s, x, price, size, fvYes)
  {
    var t := Accepted(s, x, price, size);
    assert OnFeedback(t.engine, t.feedback[0], fvYes).position == s.engine.position;
    Protocol.CreditZero(t.accounts, |s.accounts|);
  }

  /** The post is accepted and the engine hears of it. */
  lemma PostRests(u: Setup, s: System, x: Side, price: real, size: real, fvYes: real)
    requires Reached(u, s) && Placeable(s, x, price, size)
    ensures Reached(u, Resting(s, x, price, TruncateToCents(size), fvYes))
  {
    PostIsAccepted(s, x, price, size);
    OneMore(u, s, ExecPost(PostResting(|s.accounts|)));
    AcceptedRests(s, x, price, TruncateToCents(size), fvYes);
    OneMore(u, Accepted(s, x, price, TruncateToCents(size)), Deliver(fvYes));
  }

  /** The side's resting order, untouched so far. */
  ghost predicate Untouched(s: System, x: Side, o: ManagedOrder) {
    && s.engine.quoter.At(x).order == Some(o) && o.sizeFilled == 0.0 < o.size
    && MatchedSide(s.engine.quoter, o.id) == Some(x)
    && o.id < |s.accounts| && s.accounts[o.id] == Account(x, o.price, o.size, 0.0, true, 0.0)
  }

  function FilledEngine(e: EngineState, x: Side, o: ManagedOrder): EngineState {
    e.(position := e.position.Record(x, o.price, o.size, false, 0.0),
       quoter := e.quoter.With(x, e.quoter.At(x).WsRecorded(o.size).Cleared()))
  }

  function Filled(s: System, x: Side, o: ManagedOrder): System
    requires o.id < |s.accounts|
  {
    s.(engine := FilledEngine(s.engine, x, o),
       accounts := s.accounts[o.id := Account(x, o.price, o.size, o.size, true, o.size)])
  }

  lemma FullReport(e: EngineState, x: Side, o: ManagedOrder)
    requires e.quoter.At(x).order == Some(o) && o.sizeFilled == 0.0 < o.size
    requires MatchedSide(e.quoter, o.id) == Some(x)
    ensures OnTradeStatus(e, o.id, true, Some(o.size)) == FilledEngine(e, x, o)
    ensures AllShares(FilledEngine(e, x, o)) - AllShares(e) == o.size
  {
  }

  lemma FullReportFills(s: System, t: System, x: Side, o: ManagedOrder)
    requires Untouched(s, x, o) && t == MatchStep(s, o.id, o.size)
    ensures UpdateStep(t, o.id, true, Some(o.size)) == Filled(s, x, o)
  {
    FullReport(t.engine, x, o);
    assert UpdateStep(t, o.id, true, Some(o.size)).accounts == Filled(s, x, o).accounts;
  }

  /** The order is matched in full and the user channel says so. */
  lemma OrderFills(u: Setup, s: System, x: Side, o: ManagedOrder)
    requires Reached(u, s) && Untouched(s, x, o)
    ensures Reached(u, Filled(s, x, o))
  {
    var t := MatchStep(s, o.id, o.size);
    OneMore(u, s, Match(o.id, o.size));
    FullReportFills(s, t, x, o);
    OneMore(u, t, UserUpdate(o.id, true, Some(o.size)));
  }

  lemma FillLeavesTheOther(s: System, x: Side, o: ManagedOrder, w: ManagedOrder)
    requires Untouched(s, x, o) && Untouched(s, Other(x), w)
    ensures Untouched(Filled(s, x, o), Other(x), w)
  {
  }

  // ── The market ──

  /** A configuration that trades near even prices: room for one order worth a dollar, and a zone a few cents wide. */
  predicate Trades(cfg: Config) {
    && 0.0 < cfg.quoting.minOrderSize <= cfg.quoting.maxOrderSize && 2.0 <= cfg.quoting.maxOrderSize
    && 0 < cfg.quoting.maxBatches
    && 0.56 <= cfg.quoting.maxFairValueExtremity && cfg.quoting.minEdge <= 0.5
    && 0.0 < cfg.risk.maxUnpairedShares && 0.0 < cfg.risk.goDark
  }

  /** Shares the executor places of the first order. */
  function Placed(cfg: Config): real {
    TruncateToCents(cfg.quoting.maxOrderSize)
  }

  lemma SomethingIsPlaced(cfg: Config)
    requires Trades(cfg)
    ensures 1.0 < Placed(cfg) <= cfg.quoting.maxOrderSize
  {
    TruncateToCentsBounds(cfg.quoting.maxOrderSize);
  }

  /** A tick at a fair value near even, with five cents of edge. */
  function Now(fvYes: real): TickInput {
    TickInput(0, true, false, true, true, false, true, fvYes, 0.05, 0.0, 300000, CENT, SILENT)
  }

  /** A fair value that favours side `x` by five cents. */
  function Favouring(x: Side): real {
    if x == Yes then 0.55 else 0.45
  }

  lemma NearEvenZone(cfg: Config, fvYes: real)
    requires 0.56 <= cfg.quoting.maxFairValueExtremity && 0.45 <= fvYes <= 0.55
    ensures 0.55 <= ZoneMax(cfg, Now(fvYes))
  {
    var risk := TickRisk(cfg, Now(fvYes));
    NearEvenRisk(cfg, fvYes);
    WideEnough(cfg.quoting.maxFairValueExtremity - 0.5, 1.0 - risk);
  }

  lemma NearEvenRisk(cfg: Config, fvYes: real)
    requires 0.45 <= fvYes <= 0.55
    ensures 0.0 <= TickRisk(cfg, Now(fvYes)) <= 0.03
  {
    assert TickRisk(cfg, Now(fvYes)) == Abs(fvYes - 0.5) * 2.0 * 0.3;
  }

  lemma WideEnough(width: real, calm: real)
    requires 0.06 <= width && 0.97 <= calm
    ensures 0.05 <= width * calm
  {
    MulMono(0.06, width, calm);
  }

  lemma HalfIsTheTarget(x: Side)
    ensures Target(Now(Favouring(x)), x) == 0.5 && RoundToTick(0.5, CENT) == 0.5
  {
    assert 0.5 == Ticks(50, CENT);
    GridPriceIsKept(50, CENT);
  }

  lemma TickIsInCents(fvYes: real)
    ensures WholeCentAction(Tick(Now(fvYes)))
  {
    assert CENT == Ticks(1, CENT);
  }

  /** An order of size `n` at fifty cents. */
  function Half(x: Side, n: real): Command {
    PostOrder(x, 0.5, n)
  }

  /** Side `x` has posted its first order at fifty cents. */
  ghost function Posted(cfg: Config, s: System, x: Side): System {
    s.(engine := s.engine.(quoter := s.engine.quoter.With(x, s.engine.quoter.At(x).MarkPost())),
       commands := s.commands + [Half(x, cfg.quoting.maxOrderSize)])
  }

  /** An engine that holds nothing and rests nothing, whose only news is a book of `x`. */
  ghost predicate WillPost(e: EngineState, x: Side) {
    && !e.paused && e.heartbeatHealthy && !e.guardActive && e.position == EMPTY
    && e.BookOf(x) == Some(Book(0, None)) && BestAsk(e.yesBook).None?
    && e.quoter.yes.order.None? && e.quoter.no.order.None?
    && !e.quoter.At(x).Pending()
    && (e.BookOf(Other(x)).None? || e.quoter.At(Other(x)).Pending())
  }

  lemma HalfIsDecided(cfg: Config, e: EngineState, x: Side)
    requires Trades(cfg) && WillPost(e, x)
    ensures DecisionOn(cfg, e, Now(Favouring(x)), x) == Post(0.5, cfg.quoting.maxOrderSize)
  {
    NearEvenZone(cfg, Favouring(x));
    HalfIsTheTarget(x);
    assert Postable(cfg, e, Now(Favouring(x)), x);
    FirstPost(cfg, e, Now(Favouring(x)), x, 0.5);
  }

  lemma WillTick(cfg: Config, e: EngineState, x: Side)
    requires Trades(cfg) && WillPost(e, x)
    ensures Quiet(cfg, e, Now(Favouring(x))) && !RebalanceWanted(cfg, e)
    ensures DecisionOn(cfg, e, Now(Favouring(x)), Other(x)) == Hold
  {
    NearEvenZone(cfg, Favouring(x));
    assert TickOpen(cfg, e, Now(Favouring(x)));
  }

  lemma WillPostHalf(cfg: Config, e: EngineState, x: Side)
    requires Trades(cfg) && WillPost(e, x)
    ensures QuoteTick(cfg, e, Now(Favouring(x)))
         == (e.(quoter := e.quoter.With(x, e.quoter.At(x).MarkPost())), [Half(x, cfg.quoting.maxOrderSize)])
  {
    HalfIsDecided(cfg, e, x);
    WillTick(cfg, e, x);
    PostingTick(cfg, e, Now(Favouring(x)), x, 0.5, cfg.quoting.maxOrderSize);
  }

  lemma PostsHalf(u: Setup, s: System, x: Side)
    requires Trades(u.cfg) && WillPost(s.engine, x) && Reached(u, s)
    ensures Reached(u, Posted(u.cfg, s, x))
  {
    WillPostHalf(u.cfg, s.engine, x);
    TickIsInCents(Favouring(x));
    OneTick(u, s, Now(Favouring(x)), Posted(u.cfg, s, x).engine, [Half(x, u.cfg.quoting.maxOrderSize)]);
  }

  ghost function OrderOf(cfg: Config, x: Side, id: OrderId): ManagedOrder {
    ManagedOrder(id, 0.5, Placed(cfg), 0.55, 1.0, 0.0)
  }
}
