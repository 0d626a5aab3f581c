/** Pair cost: whatever mix of maker fills, cancel results and rebalances lands in whatever order, a pair never
    costs a dollar, as long as orders open at the same time on opposite sides do not add up to one. */
module PairCost {
  import opened Common
  import opened FillEngine
  import opened Position
  import opened Quoting
  import opened Orders
  import opened Strategy
  import opened Executor
  import opened Lifecycle
  import opened Protocol
  import opened TickContract
  import opened ProtocolRuns
  import opened FillAccounting

  // ── Fill by fill ──

  /** A fill that passes its guard against the other side's average at the moment it lands. */
  ghost predicate GuardedFill(p: Totals, f: Fill) {
    && f.size > 0.0 && 0.0 <= f.price < 1.0
    && f.price + Avg(p.At(Other(f.side))) < 1.0
  }

  ghost predicate GuardedHistory(fills: seq<Fill>) {
    fills == []
    || (GuardedHistory(fills[..|fills| - 1]) && GuardedFill(PositionOf(fills[..|fills| - 1]), fills[|fills| - 1]))
  }

  /** Books that are in order: sound, nothing paid back, and pairs below a dollar. */
  ghost predicate CheapPairs(p: Totals) {
    && Sound(p.yes) && Sound(p.no)
    && p.yes.cost >= 0.0 && p.no.cost >= 0.0
    && p.AvgPairCost() < 1.0
  }

  lemma GuardedFillKeepsPairsCheap(p: Totals, f: Fill)
    requires CheapPairs(p) && GuardedFill(p, f)
    ensures CheapPairs(Apply(p, f))
  {
    MulMono(0.0, f.price, f.size);
    AvgNonNegative(p.yes);
    AvgNonNegative(p.no);
    AvgStaysBelow(p.At(f.side), f.price, f.size, f.taker, f.fee, 1.0 - Avg(p.At(Other(f.side))));
  }

  lemma {:induction false} GuardedHistoryKeepsPairsCheap(fills: seq<Fill>)
    requires GuardedHistory(fills)
    ensures CheapPairs(PositionOf(fills))
    ensures PositionOf(fills).Paired() > 0.0 ==> PositionOf(fills).LockedProfit() > 0.0
  {
    if fills != [] {
      GuardedHistoryKeepsPairsCheap(fills[..|fills| - 1]);
      GuardedFillKeepsPairsCheap(PositionOf(fills[..|fills| - 1]), fills[|fills| - 1]);
    }
    if PositionOf(fills).Paired() > 0.0 {
      CheapPairsLockProfit(PositionOf(fills));
    }
  }

  // ── Concurrently ──

  /** Prices at which a side's maker order can still fill. */
  function MakerPrices(q: SideQuote, flight: seq<Op>): set<real> {
    if q.order.Some? then {q.order.value.price}
    else if |flight| != 1 then {}
    else
      match flight[0]
      case Sent(PostOrder(_, price, _)) => {RoundToTick(price, CENT)}
      case Answered(OrderPosted(_, _, price, _, _)) => {price}
      case _ => {}
  }

  function TakerPrices(x: Side, flight: seq<Op>): set<real> {
    if |flight| != 1 then {}
    else
      match flight[0]
      case Sent(RebalanceTaker(side, price, _)) => if side == x then {price} else {}
      case Answered(RebalanceResult(side, _, _, price)) => if side == x then {price} else {}
      case _ => {}
  }

  /** Every price at which side `x` can still be filled. */
  ghost function OpenPrices(s: System, x: Side): set<real> {
    MakerPrices(s.engine.quoter.At(x), Flight(s, Maker(x))) + TakerPrices(x, Flight(s, Taker))
  }

  /** Orders open at the same time on opposite sides add up to less than a dollar. */
  ghost predicate Compatible(s: System) {
    forall p, q :: p in OpenPrices(s, Yes) && q in OpenPrices(s, No) ==> p + q < 1.0
  }

  ghost predicate Affordable(p: Totals, x: Side, price: real) {
    0.0 <= price < 1.0 && price + Avg(p.At(Other(x))) < 1.0
  }

  ghost predicate PairInv(s: System) {
    && CheapPairs(s.engine.position)
    && forall x, p :: p in OpenPrices(s, x) ==> Affordable(s.engine.position, x, p)
  }

  /** Position `r` is position `p` with one fill on `x` at `price`. */
  ghost predicate FilledAt(p: Totals, r: Totals, x: Side, price: real) {
    exists size, taker, fee :: size > 0.0 && r == p.Record(x, price, size, taker, fee)
  }

  ghost predicate FewerPrices(s: System, t: System) {
    forall x :: OpenPrices(t, x) <= OpenPrices(s, x)
  }

  /** A step that opens no price, and fills nothing or one order at a price that was open. */
  ghost predicate FillsOpenPrices(s: System, t: System) {
    && FewerPrices(s, t)
    && (t.engine.position == s.engine.position
        || exists x, price :: price in OpenPrices(s, x) && FilledAt(s.engine.position, t.engine.position, x, price))
  }

  lemma QuietKeepsPairs(s: System, t: System)
    requires PairInv(s) && FewerPrices(s, t) && t.engine.position == s.engine.position
    ensures PairInv(t)
  {
    forall x, p | p in OpenPrices(t, x) ensures Affordable(t.engine.position, x, p) {
      assert p in OpenPrices(s, x);
    }
  }

  /** A fill at an open price. Prices open on the other side stay affordable because they are compatible. */
  lemma FillKeepsPairs(s: System, t: System, x: Side, price: real)
    requires PairInv(s) && Compatible(s) && FewerPrices(s, t)
    requires price in OpenPrices(s, x) && FilledAt(s.engine.position, t.engine.position, x, price)
    ensures PairInv(t)
  {
    var p, y := s.engine.position, Other(x);
    var size, taker, fee :| size > 0.0 && t.engine.position == p.Record(x, price, size, taker, fee);
    assert Affordable(p, x, price);
    GuardedFillKeepsPairsCheap(p, Fill(x, price, size, taker, fee));
    forall z, v | v in OpenPrices(t, z) ensures Affordable(t.engine.position, z, v) {
      assert v in OpenPrices(s, z) && Affordable(p, z, v);
      if z == y {
        assert price + v < 1.0;
        AvgStaysBelow(p.At(x), price, size, taker, fee, 1.0 - v);
      }
    }
  }

  /** Such a step keeps pairs cheap if the open prices are compatible, or if it fills nothing. */
  lemma FillingKeepsPairs(s: System, t: System)
    requires PairInv(s) && FillsOpenPrices(s, t) && (Compatible(s) || t.engine.position == s.engine.position)
    ensures PairInv(t)
  {
    if t.engine.position == s.engine.position {
      QuietKeepsPairs(s, t);
    } else {
      var x, price :| price in OpenPrices(s, x) && FilledAt(s.engine.position, t.engine.position, x, price);
      FillKeepsPairs(s, t, x, price);
    }
  }

  // ── Fills ──

  lemma UpdatePosition(s: System, id: OrderId, isMatch: bool, size: Option<real>)
    ensures var p, r := s.engine.position, UpdateStep(s, id, isMatch, size).engine.position;
            r != p ==>
              var x := MatchedSide(s.engine.quoter, id);
              && x.Some? && s.engine.quoter.At(x.value).order.Some?
              && FilledAt(p, r, x.value, s.engine.quoter.At(x.value).order.value.price)
  {
    var p, r := s.engine.position, UpdateStep(s, id, isMatch, size).engine.position;
    if r != p {
      var x := MatchedSide(s.engine.quoter, id).value;
      var q := s.engine.quoter.At(x);
      assert r == p.Record(x, q.order.value.price, q.WsDelta(size.value), false, 0.0);
    }
  }

  lemma ReportedPrices(q: SideQuote, flight: seq<Op>, cumulative: real)
    requires q.order.Some? && (|flight| == 1 ==> flight[0].Sent? ==> flight[0].command.CancelOrder?)
    requires |flight| == 1 ==> flight[0].Answered? ==> flight[0].reply.CancelResult?
    ensures MakerPrices(Reported(q, cumulative), flight) <= MakerPrices(q, flight)
  {
  }

  lemma OrderFlight(x: Side, q: SideQuote, flight: seq<Op>, accounts: seq<Account>)
    requires SideInv(x, q, flight, accounts) && q.order.Some?
    ensures |flight| == 1 ==> flight[0].Sent? ==> flight[0].command.CancelOrder?
    ensures |flight| == 1 ==> flight[0].Answered? ==> flight[0].reply.CancelResult?
  {
  }

  lemma UpdateFills(s: System, id: OrderId, isMatch: bool, size: Option<real>)
    requires Inv(s)
    ensures FillsOpenPrices(s, UpdateStep(s, id, isMatch, size))
  {
    UpdateOutcome(s, id, isMatch, size);
    UpdatePosition(s, id, isMatch, size);
    var t := UpdateStep(s, id, isMatch, size);
    if t != s {
      UpdatingFills(s, t, MatchedSide(s.engine.quoter, id).value, id, size.value);
    }
  }

  lemma UpdatingFills(s: System, t: System, x: Side, id: OrderId, cumulative: real)
    requires Inv(s) && UpdatesOrder(s, t, x, id, cumulative)
    requires t.engine.position == s.engine.position
          || FilledAt(s.engine.position, t.engine.position, x, s.engine.quoter.At(x).order.value.price)
    ensures FillsOpenPrices(s, t)
  {
    var q := s.engine.quoter.At(x);
    FlightSame(s, t);
    assert SideInv(x, q, Flight(s, Maker(x)), s.accounts);
    OrderFlight(x, q, Flight(s, Maker(x)), s.accounts);
    ReportedPrices(q, Flight(s, Maker(x)), cumulative);
    forall z ensures OpenPrices(t, z) <= OpenPrices(s, z) {
      assert z == x || z == Other(x);
    }
    assert q.order.value.price in OpenPrices(s, x);
  }

  /** Price of the fill a feedback message may carry. */
  function FeedbackPrice(q: SideQuote, fb: Feedback): real
    requires !fb.RebalanceResult?
  {
    match fb
    case OrderPosted(_, _, price, _, _) => price
    case OrderFailed(_) => 0.0
    case CancelResult(_, id, _) => if q.Lookup(id).None? then 0.0 else q.Lookup(id).value.0
  }

  lemma FeedbackPosition(s: System, fvYes: real)
    requires s.feedback != [] && !s.feedback[0].RebalanceResult?
    requires NewShares(s.engine.quoter.At(s.feedback[0].side), s.feedback[0]) >= 0.0
    ensures var fb, p, r := s.feedback[0], s.engine.position, DeliverStep(s, fvYes).engine.position;
            var q := s.engine.quoter.At(fb.side);
            && (NewShares(q, fb) == 0.0 && !fb.OrderPosted? ==> r == p)
            && (fb.OrderPosted? && !fb.alreadyFilled ==> r == p)
            && (NewShares(q, fb) > 0.0 ==> FilledAt(p, r, fb.side, FeedbackPrice(q, fb)))
  {
    var fb, p, r := s.feedback[0], s.engine.position, DeliverStep(s, fvYes).engine.position;
    var q := s.engine.quoter.At(fb.side);
    if NewShares(q, fb) > 0.0 {
      assert r == p.Record(fb.side, FeedbackPrice(q, fb), NewShares(q, fb), false, 0.0);
    }
  }

  /** A maker feedback message fills, if anything, at the side's open price. */
  lemma FeedbackFillsAtOpenPrice(x: Side, q: SideQuote, fb: Feedback, accounts: seq<Account>)
    requires AccountsInv(accounts) && !fb.RebalanceResult? && SideInv(x, q, [Answered(fb)], accounts)
    ensures NewShares(q, fb) >= 0.0
    ensures NewShares(q, fb) > 0.0 ==> FeedbackPrice(q, fb) in MakerPrices(q, [Answered(fb)])
    ensures fb.OrderPosted? ==> fb.size > 0.0 && fb.price in MakerPrices(q, [Answered(fb)])
    ensures !fb.CancelResult? ==> q.order.None?
  {
    assert OpFits(x, q, [Answered(fb)][0], accounts);
  }

  lemma ConsumingFills(s: System, t: System, fb: Feedback, fv: real, ask: real)
    requires Inv(s) && s.feedback != [] && fb == s.feedback[0] && !fb.RebalanceResult?
    requires Consumes(s, t, fb, NewShares(s.engine.quoter.At(fb.side), fb))
    requires var q, r := s.engine.quoter.At(fb.side), t.engine.quoter.At(fb.side);
             && (fb.OrderFailed? || (fb.OrderPosted? && fb.alreadyFilled) ==> r == q.PostFailed())
             && (fb.OrderPosted? && !fb.alreadyFilled ==>
                   r == q.Posted(ManagedOrder(fb.id, fb.price, fb.size, fv, ask, 0.0)))
             && (fb.CancelResult? ==> r == q.CancelDone())
    requires var p, r, q := s.engine.position, t.engine.position, s.engine.quoter.At(fb.side);
             && (NewShares(q, fb) == 0.0 && !fb.OrderPosted? ==> r == p)
             && (fb.OrderPosted? && !fb.alreadyFilled ==> r == p)
             && (NewShares(q, fb) > 0.0 ==> FilledAt(p, r, fb.side, FeedbackPrice(q, fb)))
    ensures FillsOpenPrices(s, t)
  {
    var x := fb.side;
    var q := s.engine.quoter.At(x);
    FlightDelivered(s, t);
    assert SideInv(x, q, Flight(s, Maker(x)), s.accounts);
    assert Flight(s, Maker(x)) == [Answered(fb)] && Flight(t, Maker(x)) == [];
    FeedbackFillsAtOpenPrice(x, q, fb, s.accounts);
    forall z ensures OpenPrices(t, z) <= OpenPrices(s, z) {
      assert z == x || z == Other(x);
    }
    if NewShares(q, fb) > 0.0 {
      assert FeedbackPrice(q, fb) in OpenPrices(s, x);
    }
  }

  lemma TakenPosition(s: System, fvYes: real)
    requires s.feedback != [] && s.feedback[0].RebalanceResult?
    ensures var fb, p, r := s.feedback[0], s.engine.position, DeliverStep(s, fvYes).engine.position;
            r == p || FilledAt(p, r, fb.side, fb.price)
  {
    var fb, p, r := s.feedback[0], s.engine.position, DeliverStep(s, fvYes).engine.position;
    if r != p {
      assert r == p.Record(fb.side, fb.price, fb.taken, true, TakerFee(fb.price, fb.taken));
    }
  }

  lemma TakenFills(s: System, t: System, fb: Feedback)
    requires Inv(s) && s.feedback != [] && fb == s.feedback[0] && fb.RebalanceResult?
    requires ConsumesTaken(s, t, fb)
    requires t.engine.position == s.engine.position
          || FilledAt(s.engine.position, t.engine.position, fb.side, fb.price)
    ensures FillsOpenPrices(s, t)
  {
    FlightDelivered(s, t);
    assert Flight(s, Taker) == [Answered(fb)] && Flight(t, Taker) == [];
    assert fb.price in OpenPrices(s, fb.side);
    assert FewerPrices(s, t);
  }

  lemma DeliveryFills(s: System, fvYes: real)
    requires Inv(s) && s.feedback != []
    ensures FillsOpenPrices(s, DeliverStep(s, fvYes))
  {
    var t, fb := DeliverStep(s, fvYes), s.feedback[0];
    if fb.RebalanceResult? {
      DeliverConsumesTaken(s, fvYes);
      TakenPosition(s, fvYes);
      TakenFills(s, t, fb);
    } else {
      DeliverConsumes(s, fvYes);
      var fv, ask := DeliverQuote(s, fvYes);
      NewSharesNonNegative(s);
      FeedbackPosition(s, fvYes);
      ConsumingFills(s, t, fb, fv, ask);
    }
  }

  // ── The executor and the channels ──

  /** The executor's answer carries the price the command was executed at. */
  ghost predicate SamePrice(c: Command, f: Feedback) {
    && (f.OrderPosted? ==> c.PostOrder? && f.price == RoundToTick(c.price, CENT))
    && (f.RebalanceResult? ==> c.RebalanceTaker? && f.price == c.price && f.side == c.side)
  }

  lemma AnswerPrices(q: SideQuote, x: Side, c: Command, f: Feedback)
    requires SamePrice(c, f)
    ensures MakerPrices(q, [Answered(f)]) <= MakerPrices(q, [Sent(c)])
    ensures TakerPrices(x, [Answered(f)]) <= TakerPrices(x, [Sent(c)])
  {
  }

  lemma AnswerFillsNothing(s: System, t: System, f: Feedback)
    requires Inv(s) && Answers(s, t, f) && SamePrice(s.commands[0], f)
    ensures FillsOpenPrices(s, t)
  {
    assert SideInv(Yes, s.engine.quoter.At(Yes), Flight(s, Maker(Yes)), s.accounts);
    assert SideInv(No, s.engine.quoter.At(No), Flight(s, Maker(No)), s.accounts);
    FlightAnswered(s, t, f);
    forall z ensures OpenPrices(t, z) <= OpenPrices(s, z) {
      AnswerPrices(s.engine.quoter.At(z), z, s.commands[0], f);
    }
  }

  lemma PostFillsNothing(u: Setup, s: System, r: PostResponse)
    requires Inv(s) && Enabled(u, s, ExecPost(r))
    ensures FillsOpenPrices(s, PostStep(s, r))
  {
    var c := s.commands[0];
    PostAnswerFits(u, s, r);
    AnswerFillsNothing(s, PostStep(s, r), ReplyToPost(s.cachesWarm, c.side, c.price, c.size, r));
  }

  lemma MovingAlongFillsNothing(s: System, t: System)
    requires MovesAlong(s, t)
    ensures FillsOpenPrices(s, t)
  {
    forall z ensures OpenPrices(t, z) <= OpenPrices(s, z) {
    }
  }

  lemma CancelPrices(x: Side, q: SideQuote, r: SideQuote, flight: seq<Op>, sent: seq<Op>, accounts: seq<Account>)
    requires SideInv(x, q, flight, accounts) && SideSends(x, q, r, sent) && NoPosts(sent)
    ensures MakerPrices(r, flight + sent) <= MakerPrices(q, flight)
  {
    SideSendsFits(x, q, r, sent, flight, accounts);
    if sent == [] {
      assert flight + sent == flight;
    } else {
      assert sent[0] in sent;
    }
  }

  lemma CancellingFillsNothing(u: Setup, s: System, t: System, now: seq<Command>, later: seq<Command>)
    requires Inv(s) && OnlyCancels(u, s, t, now, later)
    ensures FillsOpenPrices(s, t)
  {
    EngineSendsForTaker(u, s, t, now, later);
    assert Flight(t, Taker) == Flight(s, Taker);
    forall x ensures OpenPrices(t, x) <= OpenPrices(s, x) {
      var sent := CommandsOf(now, Maker(x)) + CommandsOf(later, Maker(x));
      EngineSendsOnSide(u, s, t, now, later, x);
      assert NoPosts(sent);
      assert SideInv(x, s.engine.quoter.At(x), Flight(s, Maker(x)), s.accounts);
      CancelPrices(x, s.engine.quoter.At(x), t.engine.quoter.At(x), Flight(s, Maker(x)), sent, s.accounts);
    }
  }

  /** Every step but a tick only fills what is open. */
  lemma StepFillsOpenPrices(u: Setup, s: System, a: Action)
    requires Inv(s) && Enabled(u, s, a) && !a.Tick?
    ensures FillsOpenPrices(s, Next(u, s, a))
  {
    if IsEngineStep(a) {
      var now, later := EngineStepSends(u, s, a);
      CancellingFillsNothing(u, s, Next(u, s, a), now, later);
    } else {
      match a
      case UserUpdate(id, isMatch, size) => UpdateFills(s, id, isMatch, size);
      case Deliver(fvYes) => DeliveryFills(s, fvYes);
      case Flush =>
        FlushMovesAlong(s);
        MovingAlongFillsNothing(s, FlushStep(s));
      case Match(id, amount) => FlightSame(s, MatchStep(s, id, amount));
      case ExecRotation(warmed) =>
        RotationMovesAlong(u, s, warmed);
        MovingAlongFillsNothing(s, Next(u, s, a));
      case ExecPost(r) => PostFillsNothing(u, s, r);
      case ExecCancel(stillLive, reported) =>
        var c := s.commands[0];
        AnswerFillsNothing(s, CancelStep(s, stillLive, reported), ReplyToCancel(c.side, c.id, reported));
      case ExecRebalance(r) =>
        var c := s.commands[0];
        AnswerFillsNothing(s, RebalanceStep(u, s, r),
                           ReplyToRebalance(s.cachesWarm, c.side, c.price, c.size, u.scale, r));
    }
  }

  // ── New commands ──

  /** What the pair-cost law asks of the configuration. */
  ghost predicate Prudent(cfg: Config) {
    0.5 <= cfg.quoting.maxFairValueExtremity < 1.0 && cfg.risk.rebalanceMaxPairCost < 1.0
  }

  lemma ZoneBounds(cfg: Config, m: TickInput)
    requires 0.5 <= cfg.quoting.maxFairValueExtremity
    ensures 0.5 <= ZoneMax(cfg, m) <= cfg.quoting.maxFairValueExtremity
  {
    DynamicMaxBounds(cfg.quoting.maxFairValueExtremity, TickRisk(cfg, m));
  }

  ghost predicate WholeCents(m: TickInput) {
    m.tick > 0.0 && OnGrid(m.tick, CENT)
  }

  /** Prices at which the commands of a slot will be able to fill are affordable when they are sent. */
  ghost predicate SentAffordably(p: Totals, sent: seq<Op>) {
    forall op :: op in sent && op.Sent? ==>
      && (op.command.PostOrder? ==> Affordable(p, op.command.side, RoundToTick(op.command.price, CENT)))
      && (op.command.RebalanceTaker? ==> Affordable(p, op.command.side, op.command.price))
  }

  lemma GuardedPostIsAffordable(cfg: Config, e: EngineState, m: TickInput, x: Side, price: real, size: real)
    requires Prudent(cfg) && WholeCents(m) && CheapPairs(e.position) && GuardedPost(cfg, e, m, x, price, size)
    ensures Affordable(e.position, x, RoundToTick(price, CENT))
  {
    ZoneBounds(cfg, m);
    RoundToTickProperties(Max(FairValue(m.fvYes, x) - m.edge, 0.01), m.tick);
    WholeCentTicksStayOnCents(price, m.tick);
    ReRoundingIsIdentityExactlyOnCents(price);
    AvgNonNegative(e.position.At(Other(x)));
  }

  lemma RebalanceIsAffordable(cfg: Config, e: EngineState)
    requires Prudent(cfg) && CheapPairs(e.position)
    ensures SentAffordably(e.position, RebalanceOp(cfg, e))
  {
    if RebalanceWanted(cfg, e) {
      var side := RebalanceSide(e);
      var ask := BestAsk(e.BookOf(side)).value;
      AvgNonNegative(e.position.At(Other(side)));
      PositiveFactor(ask, RebalanceSize(cfg, e));
    }
  }

  lemma GuardedOpsAreAffordable(cfg: Config, e: EngineState, m: TickInput, x: Side, q: SideQuote, r: SideQuote,
                                sent: seq<Op>)
    requires Prudent(cfg) && WholeCents(m) && CheapPairs(e.position) && SideSends(x, q, r, sent)
    requires forall op :: op in sent && op.Sent? && op.command.PostOrder? ==>
               GuardedPost(cfg, e, m, x, op.command.price, op.command.size)
    ensures SentAffordably(e.position, sent)
  {
    if sent != [] && sent[0].Sent? && sent[0].command.PostOrder? {
      GuardedPostIsAffordable(cfg, e, m, x, sent[0].command.price, sent[0].command.size);
    }
  }

  /** A tick's share of one side: every post is a guarded one, addressed to that side. */
  lemma TickPostsAffordably(cfg: Config, e: EngineState, m: TickInput, x: Side, f: EngineState,
                            now: seq<Command>, later: seq<Command>)
    requires Prudent(cfg) && WholeCents(m) && CheapPairs(e.position) && TickSends(cfg, e, m, x, f, now, later)
    ensures SentAffordably(e.position, CommandsOf(now, Maker(x)) + CommandsOf(later, Maker(x)))
  {
    GuardedOpsAreAffordable(cfg, e, m, x, e.quoter.At(x), f.quoter.At(x),
                            CommandsOf(now, Maker(x)) + CommandsOf(later, Maker(x)));
  }

  lemma NewPrices(x: Side, q: SideQuote, r: SideQuote, flight: seq<Op>, sent: seq<Op>, accounts: seq<Account>,
                  p: Totals)
    requires SideInv(x, q, flight, accounts) && SideSends(x, q, r, sent) && SentAffordably(p, sent)
    ensures forall v :: v in MakerPrices(r, flight + sent) ==> v in MakerPrices(q, flight) || Affordable(p, x, v)
  {
    SideSendsFits(x, q, r, sent, flight, accounts);
    if sent == [] {
      assert flight + sent == flight;
    } else {
      assert flight + sent == sent;
      assert sent[0] in sent;
    }
  }

  lemma NewTakerPrices(x: Side, before: bool, after: bool, flight: seq<Op>, sent: seq<Op>, p: Totals)
    requires TakerInv(before, flight) && TakerSends(before, after, sent) && SentAffordably(p, sent)
    ensures forall v :: v in TakerPrices(x, flight + sent) ==> v in TakerPrices(x, flight) || Affordable(p, x, v)
  {
    if sent == [] {
      assert flight + sent == flight;
    } else {
      assert flight + sent == sent;
      assert sent[0] in sent;
    }
  }

  lemma SendingKeepsPairs(u: Setup, s: System, t: System, now: seq<Command>, later: seq<Command>)
    requires Inv(s) && PairInv(s) && EngineSends(u, s, t, now, later)
    requires forall x :: SentAffordably(s.engine.position, CommandsOf(now, Maker(x)) + CommandsOf(later, Maker(x)))
    requires SentAffordably(s.engine.position, CommandsOf(now, Taker) + CommandsOf(later, Taker))
    ensures PairInv(t)
  {
    var p := s.engine.position;
    var takes := CommandsOf(now, Taker) + CommandsOf(later, Taker);
    EngineSendsForTaker(u, s, t, now, later);
    forall x, v | v in OpenPrices(t, x) ensures Affordable(t.engine.position, x, v) {
      EngineSendsOnSide(u, s, t, now, later, x);
      var sent := CommandsOf(now, Maker(x)) + CommandsOf(later, Maker(x));
      assert SideInv(x, s.engine.quoter.At(x), Flight(s, Maker(x)), s.accounts);
      assert SentAffordably(p, sent);
      NewPrices(x, s.engine.quoter.At(x), t.engine.quoter.At(x), Flight(s, Maker(x)), sent, s.accounts, p);
      NewTakerPrices(x, s.engine.pendingRebalance, t.engine.pendingRebalance, Flight(s, Taker), takes, p);
      assert v in OpenPrices(s, x) || Affordable(p, x, v);
    }
  }

  lemma TickKeepsPairs(u: Setup, s: System, m: TickInput)
    requires Prudent(u.cfg) && Inv(s) && PairInv(s) && WholeCents(m)
    ensures PairInv(TickStep(u, s, m))
  {
    var now, later := TickEngineSends(u, s, m);
    GuardedSendingKeepsPairs(u, s, TickStep(u, s, m), m, now, later);
  }

  lemma GuardedSendingKeepsPairs(u: Setup, s: System, t: System, m: TickInput, now: seq<Command>, later: seq<Command>)
    requires Prudent(u.cfg) && Inv(s) && PairInv(s) && WholeCents(m) && EngineSends(u, s, t, now, later)
    requires forall x :: TickSends(u.cfg, s.engine, m, x, t.engine, now, later)
    ensures PairInv(t)
  {
    forall x ensures SentAffordably(s.engine.position, CommandsOf(now, Maker(x)) + CommandsOf(later, Maker(x))) {
      assert TickSends(u.cfg, s.engine, m, x, t.engine, now, later);
      TickPostsAffordably(u.cfg, s.engine, m, x, t.engine, now, later);
    }
    RebalanceIsAffordable(u.cfg, s.engine);
    SendingKeepsPairs(u, s, t, now, later);
  }

  // ── All steps, all runs ──

  ghost predicate WholeCentAction(a: Action) {
    a.Tick? ==> WholeCents(a.input)
  }

  ghost predicate InCents(run: seq<Action>) {
    forall a :: a in run ==> WholeCentAction(a)
  }

  /** A run on a whole-cent market in which orders open at the same time on opposite sides never add up to a
      dollar. */
  ghost predicate CompatibleRun(u: Setup, s: System, run: seq<Action>)
    requires RunFrom(u, s, run)
    decreases |run|
  {
    && Compatible(s)
    && (run != [] ==> WholeCentAction(run[0]) && CompatibleRun(u, Next(u, s, run[0]), run[1..]))
  }

  lemma StepKeepsPairs(u: Setup, s: System, a: Action)
    requires Prudent(u.cfg) && Inv(s) && PairInv(s) && Enabled(u, s, a) && WholeCentAction(a)
    requires Compatible(s) || Next(u, s, a).engine.position == s.engine.position
    ensures PairInv(Next(u, s, a))
  {
    if a.Tick? {
      TickKeepsPairs(u, s, a.input);
    } else {
      StepFillsOpenPrices(u, s, a);
      FillingKeepsPairs(s, Next(u, s, a));
    }
  }

  lemma StartPairs()
    ensures Inv(START) && PairInv(START)
  {
    StartInv();
    assert [MarketRotation][1..] == [];
    forall x ensures OpenPrices(START, x) == {} {
      assert Flight(START, Maker(x)) == [];
      assert Flight(START, Taker) == [];
    }
  }

  lemma {:induction false} RunKeepsPairs(u: Setup, s: System, run: seq<Action>)
    requires Prudent(u.cfg) && Inv(s) && PairInv(s) && RunFrom(u, s, run) && CompatibleRun(u, s, run)
    ensures PairInv(After(u, s, run))
    decreases |run|
  {
    if run != [] {
      StepKeepsPairs(u, s, run[0]);
      StepKeepsInv(u, s, run[0]);
      RunKeepsPairs(u, Next(u, s, run[0]), run[1..]);
    }
  }

  lemma CheapPairsEarn(s: System)
    requires PairInv(s)
    ensures s.engine.position.AvgPairCost() < 1.0
    ensures s.engine.position.Paired() > 0.0 ==> s.engine.position.LockedProfit() > 0.0
  {
    if s.engine.position.Paired() > 0.0 {
      CheapPairsLockProfit(s.engine.position);
    }
  }

  /** Through every such run a pair has cost less than a dollar, so whatever is paired is locked profit. */
  lemma PairsStayBelowADollar(u: Setup, run: seq<Action>)
    requires Prudent(u.cfg) && RunFrom(u, START, run) && CompatibleRun(u, START, run)
    ensures var p := After(u, START, run).engine.position;
            p.AvgPairCost() < 1.0 && (p.Paired() > 0.0 ==> p.LockedProfit() > 0.0)
  {
    StartPairs();
    RunKeepsPairs(u, START, run);
    CheapPairsEarn(After(u, START, run));
  }
}
