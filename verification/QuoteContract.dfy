/** What a quote tick promises about the commands it sends: their prices, their sizes, and which of them may
    come together. */
module QuoteContract {
  import opened Common
  import opened FillEngine
  import opened Position
  import opened Sizing
  import opened Quoting
  import opened Orders
  import opened Strategy
  import opened Lifecycle
  import opened Protocol
  import opened TickContract
  import opened QuietTicks

  // ── The commands of a tick ──

  /** Everything a tick sends, at once or through the engine's buffer. */
  ghost function TickCommands(cfg: Config, e: EngineState, m: TickInput): seq<Command> {
    var (f, now) := QuoteTick(cfg, e, m);
    now + if |e.pending| <= |f.pending| then Staged(e, f) else []
  }

  lemma {:induction false} CommandInItsSlot(q: seq<Command>, c: Command)
    requires c in q
    ensures Sent(c) in CommandsOf(q, CommandSlot(c))
  {
    if q[0] != c {
      assert c in q[1..];
      CommandInItsSlot(q[1..], c);
    }
  }

  /** One side's share of a tick is nothing, one cancel or one post. */
  lemma SideShare(cfg: Config, e: EngineState, m: TickInput, x: Side)
    ensures var sent := CommandsOf(TickCommands(cfg, e, m), Maker(x));
            && SideSends(x, e.quoter.At(x), QuoteTick(cfg, e, m).0.quoter.At(x), sent)
            && forall op :: op in sent && op.Sent? && op.command.PostOrder? ==>
                 GuardedPost(cfg, e, m, x, op.command.price, op.command.size)
  {
    var (f, now) := QuoteTick(cfg, e, m);
    TickSendsOnSide(cfg, e, m, x);
    CommandsOfConcat(now, Staged(e, f), Maker(x));
  }

  lemma TakerShare(cfg: Config, e: EngineState, m: TickInput)
    ensures var sent := CommandsOf(TickCommands(cfg, e, m), Taker);
            && (sent == [] || sent == RebalanceOp(cfg, e))
            && TakerSends(e.pendingRebalance, QuoteTick(cfg, e, m).0.pendingRebalance, sent)
  {
    var (f, now) := QuoteTick(cfg, e, m);
    TickSendsOnSide(cfg, e, m, Yes);
    CommandsOfConcat(now, Staged(e, f), Taker);
    assert CommandsOf(now, Taker) + [] == CommandsOf(now, Taker);
  }

  // ── What a share says about its commands ──

  /** The commands of one tick, seen slot by slot. */
  ghost predicate Shares(cfg: Config, e: EngineState, m: TickInput, commands: seq<Command>) {
    && (forall x :: |CommandsOf(commands, Maker(x))| <= 1 && SideShareOf(cfg, e, m, x, CommandsOf(commands, Maker(x))))
    && (CommandsOf(commands, Taker) == []
        || (CommandsOf(commands, Taker) == RebalanceOp(cfg, e) && !e.pendingRebalance))
  }

  ghost predicate SideShareOf(cfg: Config, e: EngineState, m: TickInput, x: Side, sent: seq<Op>) {
    forall op :: op in sent && op.Sent? ==>
      && (op.command.PostOrder? ==>
            && GuardedPost(cfg, e, m, x, op.command.price, op.command.size)
            && e.quoter.At(x).order.None? && !e.quoter.At(x).Pending())
      && (op.command.CancelOrder? ==> e.quoter.At(x).CancelTarget() == Some(op.command.id))
  }

  lemma ShareOf(cfg: Config, e: EngineState, m: TickInput, x: Side, q: SideQuote, r: SideQuote, sent: seq<Op>)
    requires q == e.quoter.At(x) && SideSends(x, q, r, sent)
    requires forall op :: op in sent && op.Sent? && op.command.PostOrder? ==>
               GuardedPost(cfg, e, m, x, op.command.price, op.command.size)
    ensures |sent| <= 1 && SideShareOf(cfg, e, m, x, sent)
  {
  }

  lemma TickShares(cfg: Config, e: EngineState, m: TickInput)
    ensures Shares(cfg, e, m, TickCommands(cfg, e, m))
  {
    var f, commands := QuoteTick(cfg, e, m).0, TickCommands(cfg, e, m);
    forall x
      ensures |CommandsOf(commands, Maker(x))| <= 1 && SideShareOf(cfg, e, m, x, CommandsOf(commands, Maker(x)))
    {
      SideShare(cfg, e, m, x);
      ShareOf(cfg, e, m, x, e.quoter.At(x), f.quoter.At(x), CommandsOf(commands, Maker(x)));
    }
    TakerShare(cfg, e, m);
  }

  // ── One side ──

  /** Each side's maker, and the taker, gets at most one command a tick; so never a cancel and a post. */
  lemma AtMostOneCommandEach(cfg: Config, e: EngineState, m: TickInput)
    ensures forall c, d | c in TickCommands(cfg, e, m) && d in TickCommands(cfg, e, m) :: Same(c, d)
  {
    TickShares(cfg, e, m);
    OneCommandASlot(cfg, e, m, TickCommands(cfg, e, m));
  }

  lemma OneCommandASlot(cfg: Config, e: EngineState, m: TickInput, commands: seq<Command>)
    requires Shares(cfg, e, m, commands)
    ensures forall c, d | c in commands && d in commands :: Same(c, d)
  {
    forall c, d | c in commands && d in commands ensures Same(c, d) {
      if CommandSlot(c) == CommandSlot(d) && !CommandSlot(c).Control? {
        OneCommand(cfg, e, m, commands, c, d);
      }
    }
  }

  /** Commands of one slot that anyone waits for are one command. */
  predicate Same(c: Command, d: Command) {
    CommandSlot(c) == CommandSlot(d) && !CommandSlot(c).Control? ==> c == d
  }

  lemma OneCommand(cfg: Config, e: EngineState, m: TickInput, commands: seq<Command>, c: Command, d: Command)
    requires Shares(cfg, e, m, commands) && c in commands && d in commands
    requires CommandSlot(c) == CommandSlot(d) && !CommandSlot(c).Control?
    ensures c == d
  {
    CommandInItsSlot(commands, c);
    CommandInItsSlot(commands, d);
    assert CommandSlot(c).Maker? ==> |CommandsOf(commands, Maker(CommandSlot(c).side))| <= 1;
  }

  /** A post: from an idle side, on the tick grid, inside the zone, below any known ask, between the minimum and
      the ladder's rung, worth a dollar, and within the cap. */
  ghost predicate GoodPost(cfg: Config, e: EngineState, m: TickInput, c: Command)
    requires c.PostOrder?
  {
    var q, x := cfg.quoting, c.side;
    && e.quoter.At(x).order.None? && !e.quoter.At(x).Pending()
    && OnGrid(c.price, m.tick)
    && 1.0 - ZoneMax(cfg, m) <= c.price <= ZoneMax(cfg, m)
    && (BestAsk(e.BookOf(x)).Some? ==> c.price < BestAsk(e.BookOf(x)).value)
    && q.minOrderSize <= c.size <= DynamicSize(q.maxOrderSize, q.minOrderSize, e.Shares(x), q.maxBatches)
    && e.Shares(x) + c.size <= TotalCap(q)
    && Notional(c.price, c.size) >= 1.0
    && (Avg(e.position.At(Other(x))) > 0.0 ==> Avg(e.position.At(Other(x))) + c.price < 1.0)
    && !(Lagging(e, x) && TakerWillHandle(cfg, e))
  }

  lemma PostContract(cfg: Config, e: EngineState, m: TickInput)
    requires 0.0 < cfg.quoting.minOrderSize && m.tick > 0.0
    ensures forall c :: c in TickCommands(cfg, e, m) && c.PostOrder? ==> GoodPost(cfg, e, m, c)
  {
    TickShares(cfg, e, m);
    SharedPosts(cfg, e, m, TickCommands(cfg, e, m));
  }

  lemma SharedPosts(cfg: Config, e: EngineState, m: TickInput, commands: seq<Command>)
    requires 0.0 < cfg.quoting.minOrderSize && m.tick > 0.0 && Shares(cfg, e, m, commands)
    ensures forall c :: c in commands && c.PostOrder? ==> GoodPost(cfg, e, m, c)
  {
    forall c | c in commands && c.PostOrder? ensures GoodPost(cfg, e, m, c) {
      SharedPost(cfg, e, m, commands, c);
    }
  }

  lemma QuoteSizeFits(q: QuotingConfig, shares: real)
    requires 0.0 < q.minOrderSize <= QuoteSize(q, shares)
    ensures QuoteSize(q, shares) <= DynamicSize(q.maxOrderSize, q.minOrderSize, shares, q.maxBatches)
    ensures shares + QuoteSize(q, shares) <= TotalCap(q)
  {
  }

  lemma TargetOnGrid(m: TickInput, x: Side)
    requires m.tick > 0.0
    ensures OnGrid(Target(m, x), m.tick)
  {
    RoundToTickProperties(Max(FairValue(m.fvYes, x) - m.edge, 0.01), m.tick);
  }

  lemma SharedPost(cfg: Config, e: EngineState, m: TickInput, commands: seq<Command>, c: Command)
    requires 0.0 < cfg.quoting.minOrderSize && m.tick > 0.0
    requires Shares(cfg, e, m, commands) && c in commands && c.PostOrder?
    ensures GoodPost(cfg, e, m, c)
  {
    CommandInItsSlot(commands, c);
    assert SideShareOf(cfg, e, m, c.side, CommandsOf(commands, Maker(c.side)));
    TargetOnGrid(m, c.side);
    QuoteSizeFits(cfg.quoting, e.Shares(c.side));
  }

  /** A cancel: of the resting order, and only when no cancel is under way. */
  lemma CancelContract(cfg: Config, e: EngineState, m: TickInput)
    ensures forall c :: c in TickCommands(cfg, e, m) && c.CancelOrder? ==>
              e.quoter.At(c.side).CancelTarget() == Some(c.id)
  {
    TickShares(cfg, e, m);
    SharedCancels(cfg, e, m, TickCommands(cfg, e, m));
  }

  lemma SharedCancels(cfg: Config, e: EngineState, m: TickInput, commands: seq<Command>)
    requires Shares(cfg, e, m, commands)
    ensures forall c :: c in commands && c.CancelOrder? ==> e.quoter.At(c.side).CancelTarget() == Some(c.id)
  {
    forall c | c in commands && c.CancelOrder? ensures e.quoter.At(c.side).CancelTarget() == Some(c.id) {
      SharedCancel(cfg, e, m, commands, c);
    }
  }

  lemma SharedCancel(cfg: Config, e: EngineState, m: TickInput, commands: seq<Command>, c: Command)
    requires Shares(cfg, e, m, commands) && c in commands && c.CancelOrder?
    ensures e.quoter.At(c.side).CancelTarget() == Some(c.id)
  {
    CommandInItsSlot(commands, c);
    assert SideShareOf(cfg, e, m, c.side, CommandsOf(commands, Maker(c.side)));
  }

  // ── The rebalance ──

  /** A rebalance: when none is pending, at the known best ask, affordable, worth a dollar, and for the strictly
      lagging side unless the position is level, which only a threshold of zero or less lets through. */
  ghost predicate GoodRebalance(cfg: Config, e: EngineState, c: Command)
    requires c.RebalanceTaker?
  {
    && !e.pendingRebalance
    && BestAsk(e.BookOf(c.side)) == Some(c.price)
    && Avg(e.position.At(Other(c.side))) + c.price <= cfg.risk.rebalanceMaxPairCost
    && CLOB_MIN <= c.size <= Max(cfg.risk.rebalanceSize, CLOB_MIN) && Notional(c.price, c.size) >= 1.0
    && Abs(Imbalance(e)) >= cfg.risk.rebalanceThreshold
    && (Lagging(e, c.side) <==> Imbalance(e) != 0.0)
  }

  lemma RebalanceContract(cfg: Config, e: EngineState, m: TickInput)
    ensures forall c :: c in TickCommands(cfg, e, m) && c.RebalanceTaker? ==> GoodRebalance(cfg, e, c)
  {
    TickShares(cfg, e, m);
    SharedRebalances(cfg, e, m, TickCommands(cfg, e, m));
  }

  lemma SharedRebalances(cfg: Config, e: EngineState, m: TickInput, commands: seq<Command>)
    requires Shares(cfg, e, m, commands)
    ensures forall c :: c in commands && c.RebalanceTaker? ==> GoodRebalance(cfg, e, c)
  {
    forall c | c in commands && c.RebalanceTaker? ensures GoodRebalance(cfg, e, c) {
      CommandInItsSlot(commands, c);
    }
  }

  /** A post and a rebalance of one tick are for the same side exactly when the position is level and that side
      is YES. With a positive threshold that never happens. */
  ghost predicate Apart(cfg: Config, e: EngineState, post: Command, take: Command) {
    post.PostOrder? && take.RebalanceTaker? ==>
      && (post.side == take.side <==> Imbalance(e) == 0.0 && post.side == Yes)
      && (post.side == take.side ==> cfg.risk.rebalanceThreshold <= 0.0)
  }

  lemma PostAndRebalance(cfg: Config, e: EngineState, m: TickInput)
    ensures forall c, d | c in TickCommands(cfg, e, m) && d in TickCommands(cfg, e, m) :: Apart(cfg, e, c, d)
  {
    TickShares(cfg, e, m);
    SharedApart(cfg, e, m, TickCommands(cfg, e, m));
  }

  lemma SharedApart(cfg: Config, e: EngineState, m: TickInput, commands: seq<Command>)
    requires Shares(cfg, e, m, commands)
    ensures forall c, d | c in commands && d in commands :: Apart(cfg, e, c, d)
  {
    forall c, d | c in commands && d in commands ensures Apart(cfg, e, c, d) {
      if c.PostOrder? && d.RebalanceTaker? {
        CommandInItsSlot(commands, c);
        CommandInItsSlot(commands, d);
        assert SideShareOf(cfg, e, m, c.side, CommandsOf(commands, Maker(c.side)));
      }
    }
  }

  // ── Exactly which thresholds keep the rebalance on the lagging side ──

  ghost predicate OnlyLaggingSidesRebalance(cfg: Config) {
    forall e, m, c :: c in TickCommands(cfg, e, m) && c.RebalanceTaker? ==> Lagging(e, c.side)
  }

  /** A fresh market with a level position and a YES ask at twenty cents. */
  const LEVEL := EngineState(EMPTY, QuoterState(IDLE, IDLE), false, [], false, false, true, 0,
                             Some(Book(0, Some(0.2))), None)

  const QUIET := TickInput(0, true, false, true, true, false, true, 0.5, 0.05, 0.0, 300000, 0.01, SILENT)

  /** The guard may go dark on it; there is nothing to cancel. */
  lemma LevelGuarded(cfg: Config)
    ensures var g := Guarded(cfg, LEVEL, QUIET);
            g == LEVEL.(guardActive := g.guardActive)
  {
    assert CancelAllCommands(LEVEL.quoter) == [] && CancelAllMarked(LEVEL.quoter) == LEVEL.quoter;
    assert LEVEL.pending + [] == LEVEL.pending;
  }

  lemma LevelTickOpen(cfg: Config)
    requires cfg.quoting.maxFairValueExtremity >= 0.5
    ensures TickOpen(cfg, LEVEL, QUIET)
  {
    assert TickRisk(cfg, QUIET) == 0.0;
  }

  /** Nothing rests on it, so the maker phase does not end the tick. */
  lemma LevelMakers(cfg: Config, g: EngineState)
    requires g == LEVEL.(guardActive := g.guardActive)
    ensures !MakerPhase(cfg, g, QUIET).done
  {
  }

  /** Its rebalance buys YES, whatever the makers have just announced. */
  lemma LevelTaker(cfg: Config, g: EngineState)
    requires g == LEVEL.(guardActive := g.guardActive, quoter := g.quoter)
    requires cfg.risk.rebalanceThreshold <= 0.0 && cfg.risk.rebalanceMaxPairCost >= 0.2
    ensures RebalanceTaker(Yes, 0.2, RebalanceSize(cfg, g)) in TakerPhase(cfg, g).1
  {
    MulMono(5.0, RebalanceSize(cfg, g), 0.2);
    assert RebalanceWanted(cfg, g) && RebalanceSide(g) == Yes;
    var sent := TakerPhase(cfg, g).1;
    assert sent[|sent| - 1] == RebalanceTaker(Yes, 0.2, RebalanceSize(cfg, g));
  }

  /** What the taker sends at the end of a tick is among the tick's commands. */
  lemma TakerIsSent(cfg: Config, e: EngineState, m: TickInput, g: EngineState, q: QuoterState, c: Command)
    requires TickOpen(cfg, e, m) && m.tokensKnown && g == Guarded(cfg, e, m)
    requires !g.guardActive ==> !MakerPhase(cfg, g, m).done
    requires q == if g.guardActive then g.quoter else MakerPhase(cfg, g, m).quoter
    requires c in TakerPhase(cfg, g.(quoter := q)).1
    ensures c in TickCommands(cfg, e, m)
  {
    assert c in QuoteTick(cfg, e, m).1;
  }

  /** On a level position a threshold of zero or less buys YES. */
  lemma LevelPositionRebalances(cfg: Config)
    requires cfg.risk.rebalanceThreshold <= 0.0
    requires cfg.quoting.maxFairValueExtremity >= 0.5 && cfg.risk.rebalanceMaxPairCost >= 0.2
    ensures exists c :: c in TickCommands(cfg, LEVEL, QUIET) && c.RebalanceTaker? && c.side == Yes
  {
    var g := Guarded(cfg, LEVEL, QUIET);
    LevelGuarded(cfg);
    LevelTickOpen(cfg);
    LevelMakers(cfg, g);
    var q := if g.guardActive then g.quoter else MakerPhase(cfg, g, QUIET).quoter;
    LevelTaker(cfg, g.(quoter := q));
    TakerIsSent(cfg, LEVEL, QUIET, g, q, RebalanceTaker(Yes, 0.2, RebalanceSize(cfg, g.(quoter := q))));
  }

  lemma RebalancesStayOnTheLaggingSideExactlyForPositiveThresholds(cfg: Config)
    requires cfg.quoting.maxFairValueExtremity >= 0.5 && cfg.risk.rebalanceMaxPairCost >= 0.2
    ensures OnlyLaggingSidesRebalance(cfg) <==> cfg.risk.rebalanceThreshold > 0.0
  {
    if cfg.risk.rebalanceThreshold > 0.0 {
      forall e, m, c | c in TickCommands(cfg, e, m) && c.RebalanceTaker? ensures Lagging(e, c.side) {
        RebalanceContract(cfg, e, m);
        assert GoodRebalance(cfg, e, c);
      }
    } else {
      LevelPositionRebalances(cfg);
      var c :| c in TickCommands(cfg, LEVEL, QUIET) && c.RebalanceTaker? && c.side == Yes;
      assert !Lagging(LEVEL, c.side);
    }
  }

  // ── After a rejected post ──

  /** The side has no book, or one that counts as infinitely old. */
  ghost predicate BookExpired(e: EngineState, x: Side) {
    e.BookOf(x).Some? ==> e.BookOf(x).value.timestampMs == 0
  }

  lemma ExpiredBookNeverPosts(cfg: Config, e: EngineState, x: Side, m: TickInput)
    requires BookExpired(e, x) && m.now > cfg.risk.staleBookMs
    ensures forall c :: c in TickCommands(cfg, e, m) && c.PostOrder? ==> c.side == Other(x)
  {
    assert !BookFresh(cfg, e.BookOf(x), m.now);
    TickShares(cfg, e, m);
    SharedNoPost(cfg, e, m, TickCommands(cfg, e, m), x);
  }

  predicate NewBook(a: Action, x: Side) {
    a.BookUpdate? && a.side == x
  }

  lemma TickKeepsBooks(cfg: Config, e: EngineState, m: TickInput, x: Side)
    ensures QuoteTick(cfg, e, m).0.BookOf(x) == e.BookOf(x)
  {
    assert Guarded(cfg, e, m).BookOf(x) == e.BookOf(x);
  }

  lemma FeedbackKeepsExpired(e: EngineState, fb: Feedback, fvYes: real, x: Side)
    requires BookExpired(e, x)
    ensures BookExpired(OnFeedback(e, fb, fvYes), x)
  {
  }

  lemma ReportKeepsBooks(e: EngineState, id: OrderId, matched: bool, size: Option<real>, x: Side)
    ensures OnTradeStatus(e, id, matched, size).BookOf(x) == e.BookOf(x)
  {
  }

  lemma StepKeepsExpired(u: Setup, s: System, a: Action, x: Side)
    requires Enabled(u, s, a) && BookExpired(s.engine, x) && !NewBook(a, x)
    ensures BookExpired(Next(u, s, a).engine, x)
  {
    match a
    case UserUpdate(id, isMatch, size) => ReportKeepsBooks(s.engine, id, isMatch, size, x);
    case Deliver(fvYes) => FeedbackKeepsExpired(s.engine, s.feedback[0], fvYes, x);
    case Tick(m) => TickKeepsBooks(u.cfg, s.engine, m, x);
    case _ =>
  }

  lemma {:induction false} RunKeepsExpired(u: Setup, s: System, run: seq<Action>, x: Side)
    requires RunFrom(u, s, run) && BookExpired(s.engine, x)
    requires forall a :: a in run ==> !NewBook(a, x)
    ensures BookExpired(After(u, s, run).engine, x)
    decreases |run|
  {
    if run != [] {
      StepKeepsExpired(u, s, run[0], x);
      RunKeepsExpired(u, Next(u, s, run[0]), run[1..], x);
    }
  }

  /** Once the engine has heard of a rejected post, then through every run, until a new book of the side comes in,
      no tick posts on that side. */
  lemma RejectedPostWaitsForANewBook(u: Setup, s: System, run: seq<Action>, x: Side, m: TickInput)
    requires RunFrom(u, s, run) && run != [] && run[0].Deliver? && s.feedback[0] == OrderFailed(x)
    requires forall a :: a in run ==> !NewBook(a, x)
    requires m.now > u.cfg.risk.staleBookMs
    ensures forall c :: c in TickCommands(u.cfg, After(u, s, run).engine, m) && c.PostOrder? ==> c.side == Other(x)
  {
    assert BookExpired(Next(u, s, run[0]).engine, x);
    RunKeepsExpired(u, Next(u, s, run[0]), run[1..], x);
    ExpiredBookNeverPosts(u.cfg, After(u, s, run).engine, x, m);
  }

  lemma SharedNoPost(cfg: Config, e: EngineState, m: TickInput, commands: seq<Command>, x: Side)
    requires Shares(cfg, e, m, commands) && !BookFresh(cfg, e.BookOf(x), m.now)
    ensures forall c :: c in commands && c.PostOrder? ==> c.side == Other(x)
  {
    forall c | c in commands && c.PostOrder? ensures c.side == Other(x) {
      CommandInItsSlot(commands, c);
      assert SideShareOf(cfg, e, m, c.side, CommandsOf(commands, Maker(c.side)));
    }
  }

  // ── Quoted prices ──

  /** The 1-cent floor lifts a side's target. */
  predicate FloorApplies(m: TickInput, x: Side) {
    FairValue(m.fvYes, x) - m.edge < 0.01
  }

  /** A posted price that leaves the whole edge, up to half a tick, and was not lifted by the floor. */
  ghost predicate LeavesTheEdge(m: TickInput, c: Command)
    requires c.PostOrder?
  {
    !FloorApplies(m, c.side) && c.price <= FairValue(m.fvYes, c.side) - m.edge + m.tick / 2.0
  }

  /** With the zone at most 98 cents wide and ticks of at most a cent, no posted order was lifted by the floor. */
  lemma FloorNeverPosts(cfg: Config, e: EngineState, m: TickInput)
    requires 0.5 <= cfg.quoting.maxFairValueExtremity <= 0.98 && 0.0 < m.tick <= 0.01
    ensures forall c :: c in TickCommands(cfg, e, m) && c.PostOrder? ==> LeavesTheEdge(m, c)
  {
    TickShares(cfg, e, m);
    SharedEdge(cfg, e, m, TickCommands(cfg, e, m));
  }

  lemma SharedEdge(cfg: Config, e: EngineState, m: TickInput, commands: seq<Command>)
    requires 0.5 <= cfg.quoting.maxFairValueExtremity <= 0.98 && 0.0 < m.tick <= 0.01
    requires Shares(cfg, e, m, commands)
    ensures forall c :: c in commands && c.PostOrder? ==> LeavesTheEdge(m, c)
  {
    DynamicMaxBounds(cfg.quoting.maxFairValueExtremity, TickRisk(cfg, m));
    forall c | c in commands && c.PostOrder? ensures LeavesTheEdge(m, c) {
      CommandInItsSlot(commands, c);
      assert SideShareOf(cfg, e, m, c.side, CommandsOf(commands, Maker(c.side)));
      RoundToTickProperties(Max(FairValue(m.fvYes, c.side) - m.edge, 0.01), m.tick);
    }
  }

  /** Quotes on both sides of one tick leave the edge on both, up to rounding. */
  lemma SameTickQuotesLeaveTheEdge(cfg: Config, e: EngineState, m: TickInput)
    requires 0.5 <= cfg.quoting.maxFairValueExtremity <= 0.98 && 0.0 < m.tick <= 0.01
    ensures forall y, n | y in TickCommands(cfg, e, m) && n in TickCommands(cfg, e, m) :: EdgeLeft(m, y, n)
  {
    FloorNeverPosts(cfg, e, m);
    EdgesAddUp(m, TickCommands(cfg, e, m));
  }

  lemma EdgesAddUp(m: TickInput, commands: seq<Command>)
    requires forall c :: c in commands && c.PostOrder? ==> LeavesTheEdge(m, c)
    ensures forall y, n | y in commands && n in commands :: EdgeLeft(m, y, n)
  {
  }

  ghost predicate EdgeLeft(m: TickInput, y: Command, n: Command) {
    y.PostOrder? && y.side == Yes && n.PostOrder? && n.side == No ==> y.price + n.price <= 1.0 - 2.0 * m.edge + m.tick
  }

  /** On a whole-cent tick the executor posts exactly the price that was quoted. */
  lemma ExecutorPostsTheQuotedPrice(cfg: Config, e: EngineState, m: TickInput)
    requires m.tick > 0.0 && OnGrid(m.tick, CENT)
    ensures forall c :: c in TickCommands(cfg, e, m) && c.PostOrder? ==> RoundToTick(c.price, CENT) == c.price
  {
    TickShares(cfg, e, m);
    SharedCents(cfg, e, m, TickCommands(cfg, e, m));
  }

  lemma SharedCents(cfg: Config, e: EngineState, m: TickInput, commands: seq<Command>)
    requires m.tick > 0.0 && OnGrid(m.tick, CENT) && Shares(cfg, e, m, commands)
    ensures forall c :: c in commands && c.PostOrder? ==> RoundToTick(c.price, CENT) == c.price
  {
    forall c | c in commands && c.PostOrder? ensures RoundToTick(c.price, CENT) == c.price {
      CommandInItsSlot(commands, c);
      assert SideShareOf(cfg, e, m, c.side, CommandsOf(commands, Maker(c.side)));
      TargetOnGrid(m, c.side);
      WholeCentTicksStayOnCents(c.price, m.tick);
      ReRoundingIsIdentityExactlyOnCents(c.price);
    }
  }
}
