/** Inventory limits over every run, with makers and takers concurrently in flight: the maker cap and the
    imbalance bound. */
module InventoryLimits {
  import opened Common
  import opened FillEngine
  import opened Sizing
  import opened Quoting
  import opened Orders
  import opened Strategy
  import opened Executor
  import opened Lifecycle
  import opened Protocol
  import opened TickContract
  import opened ProtocolRuns

  /** What the limits ask of the configuration. */
  ghost predicate Configured(u: Setup) {
    && 0.0 < u.cfg.quoting.minOrderSize <= u.cfg.quoting.maxOrderSize
    && 0.0 < u.cfg.risk.maxUnpairedShares
    && 0.0 < u.cfg.risk.rebalanceThreshold
  }

  /** Largest rebalance the executor can be asked to carry out. */
  function TakerLimit(u: Setup): real {
    Max(u.cfg.risk.rebalanceSize, CLOB_MIN) + if u.scale > 0 && 100 % u.scale == 0 then 1.0 else 101.0
  }

  // ── Exposure of one side ──

  /** Unfilled size of the side's one maker order: resting, posted, or about to be posted. */
  function OpenSize(q: SideQuote, flight: seq<Op>): real {
    if q.order.Some? then q.order.value.size - q.order.value.sizeFilled
    else if |flight| != 1 then 0.0
    else
      match flight[0]
      case Sent(PostOrder(_, _, size)) => size
      case Answered(OrderPosted(_, _, _, size, _)) => size
      case _ => 0.0
  }

  /** Shares an outstanding rebalance may still add to side `x`. */
  function OpenTaker(u: Setup, x: Side, flight: seq<Op>): real {
    if |flight| != 1 then 0.0
    else
      match flight[0]
      case Sent(RebalanceTaker(side, _, _)) => if side == x then TakerLimit(u) else 0.0
      case Answered(RebalanceResult(side, filled, taken, _)) =>
        if side == x && filled && taken > 0.0 then taken else 0.0
      case _ => 0.0
  }

  datatype Exposure = Exposure(booked: real, open: real, taken: real, openTaker: real) {
    function Shares(): real { booked + taken }
    function Reach(): real { booked + open + taken + openTaker }
  }

  ghost function ExposureOf(u: Setup, s: System, x: Side): Exposure {
    Exposure(Total(s.accounts, x, Recorded), OpenSize(s.engine.quoter.At(x), Flight(s, Maker(x))),
             s.TakerShares(x), OpenTaker(u, x, Flight(s, Taker)))
  }

  // ── Flow: fills turn open size into booked size ──

  ghost predicate MakerFlows(a: Exposure, b: Exposure) {
    a.booked <= b.booked && 0.0 <= b.open <= a.open && b.booked + b.open <= a.booked + a.open
  }

  ghost predicate TakerFlows(a: Exposure, b: Exposure) {
    a.taken <= b.taken && 0.0 <= b.openTaker && b.taken + b.openTaker <= a.taken + a.openTaker
  }

  ghost predicate Flows(a: Exposure, b: Exposure) {
    MakerFlows(a, b) && TakerFlows(a, b)
  }

  /** An outstanding rebalance command has passed the tick's checks. */
  ghost predicate TakerSane(u: Setup, flight: seq<Op>) {
    |flight| == 1 && flight[0].Sent? && flight[0].command.RebalanceTaker? ==>
      var c := flight[0].command;
      c.size * c.price >= 1.0 && CLOB_MIN <= c.size <= Max(u.cfg.risk.rebalanceSize, CLOB_MIN)
  }

  ghost predicate SideWithinLimits(u: Setup, a: Exposure, other: Exposure) {
    && 0.0 <= a.open <= u.cfg.quoting.maxOrderSize
    && 0.0 <= a.taken && 0.0 <= a.openTaker <= TakerLimit(u)
    && a.booked + a.open <= TotalCap(u.cfg.quoting)
    && a.Reach() - other.Shares() < u.cfg.risk.maxUnpairedShares + u.cfg.quoting.maxOrderSize + TakerLimit(u)
  }

  ghost predicate Limited(u: Setup, s: System) {
    && (forall x :: SideWithinLimits(u, ExposureOf(u, s, x), ExposureOf(u, s, Other(x))))
    && TakerSane(u, Flight(s, Taker))
  }

  /** Flowing keeps every limit. */
  lemma FlowKeepsLimits(u: Setup, s: System, t: System)
    requires Limited(u, s)
    requires forall x :: Flows(ExposureOf(u, s, x), ExposureOf(u, t, x))
    requires TakerSane(u, Flight(t, Taker))
    ensures Limited(u, t)
  {
    forall x ensures SideWithinLimits(u, ExposureOf(u, t, x), ExposureOf(u, t, Other(x))) {
      assert SideWithinLimits(u, ExposureOf(u, s, x), ExposureOf(u, s, Other(x)));
      assert Flows(ExposureOf(u, s, x), ExposureOf(u, t, x));
      assert Flows(ExposureOf(u, s, Other(x)), ExposureOf(u, t, Other(x)));
    }
  }

  lemma OpenNonNegative(x: Side, q: SideQuote, flight: seq<Op>, accounts: seq<Account>)
    requires AccountsInv(accounts) && SideInv(x, q, flight, accounts)
    ensures OpenSize(q, flight) >= 0.0
  {
  }

  // ── Fills and feedback ──

  lemma UserUpdateFlows(x: Side, q: SideQuote, flight: seq<Op>, accounts: seq<Account>, cumulative: real)
    requires AccountsInv(accounts) && SideInv(x, q, flight, accounts)
    requires q.order.Some? && cumulative <= accounts[q.order.value.id].matched
    ensures 0.0 <= OpenSize(Reported(q, cumulative), flight) <= OpenSize(q, flight) - q.WsDelta(cumulative)
  {
    ReportedFits(x, q, flight, accounts, cumulative);
  }

  lemma UpdateKeepsLimits(u: Setup, s: System, id: OrderId, isMatch: bool, size: Option<real>)
    requires Inv(s) && Limited(u, s) && TruthfulUpdate(s, id, size)
    ensures Limited(u, UpdateStep(s, id, isMatch, size))
  {
    UpdateOutcome(s, id, isMatch, size);
    var t := UpdateStep(s, id, isMatch, size);
    if t != s {
      BookedFlows(u, s, t, MatchedSide(s.engine.quoter, id).value, id, size.value);
    }
  }

  /** A fill turns open size of one maker into booked size. */
  lemma OneMakerFills(u: Setup, s: System, t: System, x: Side, delta: real)
    requires Limited(u, s) && delta >= 0.0
    requires Total(t.accounts, x, Recorded) == Total(s.accounts, x, Recorded) + delta
    requires Total(t.accounts, Other(x), Recorded) == Total(s.accounts, Other(x), Recorded)
    requires t.takerYes == s.takerYes && t.takerNo == s.takerNo && Flight(t, Taker) == Flight(s, Taker)
    requires 0.0 <= OpenSize(t.engine.quoter.At(x), Flight(t, Maker(x)))
                 <= OpenSize(s.engine.quoter.At(x), Flight(s, Maker(x))) - delta
    requires t.engine.quoter.At(Other(x)) == s.engine.quoter.At(Other(x))
    requires Flight(t, Maker(Other(x))) == Flight(s, Maker(Other(x)))
    ensures Limited(u, t)
  {
    forall z ensures Flows(ExposureOf(u, s, z), ExposureOf(u, t, z)) {
      assert SideWithinLimits(u, ExposureOf(u, s, z), ExposureOf(u, s, Other(z)));
      assert z == x || z == Other(x);
    }
    FlowKeepsLimits(u, s, t);
  }

  lemma BookedFlows(u: Setup, s: System, t: System, x: Side, id: OrderId, cumulative: real)
    requires Inv(s) && Limited(u, s)
    requires TruthfulUpdate(s, id, Some(cumulative)) && UpdatesOrder(s, t, x, id, cumulative)
    ensures Limited(u, t)
  {
    var q := s.engine.quoter.At(x);
    FlightSame(s, t);
    assert SideInv(x, q, Flight(s, Maker(x)), s.accounts);
    UserUpdateFlows(x, q, Flight(s, Maker(x)), s.accounts, cumulative);
    CreditConserves(s.accounts, id, q.WsDelta(cumulative), x);
    CreditConserves(s.accounts, id, q.WsDelta(cumulative), Other(x));
    OneMakerFills(u, s, t, x, q.WsDelta(cumulative));
  }

  lemma ConsumedFlows(x: Side, q: SideQuote, r: SideQuote, fb: Feedback, accounts: seq<Account>)
    requires AccountsInv(accounts) && !fb.RebalanceResult? && fb.side == x
    requires SideInv(x, q, [Answered(fb)], accounts)
    requires r.order == (if fb.OrderPosted? && !fb.alreadyFilled then r.order else None)
    requires fb.OrderPosted? && !fb.alreadyFilled ==>
               r.order.Some? && r.order.value.size == fb.size && r.order.value.sizeFilled == 0.0
    ensures 0.0 <= NewShares(q, fb)
    ensures 0.0 <= OpenSize(r, []) <= OpenSize(q, [Answered(fb)]) - NewShares(q, fb)
    ensures !fb.OrderFailed? ==> fb.id < |accounts| && accounts[fb.id].side == x
  {
    assert OpFits(x, q, [Answered(fb)][0], accounts);
  }

  lemma DeliverFlows(u: Setup, s: System, t: System, fb: Feedback)
    requires Inv(s) && Limited(u, s) && s.feedback != [] && fb == s.feedback[0] && !fb.RebalanceResult?
    requires Consumes(s, t, fb, NewShares(s.engine.quoter.At(fb.side), fb))
    requires var q, r := s.engine.quoter.At(fb.side), t.engine.quoter.At(fb.side);
             && (fb.OrderPosted? && !fb.alreadyFilled ==>
                   r.order.Some? && r.order.value.size == fb.size && r.order.value.sizeFilled == 0.0)
             && (!(fb.OrderPosted? && !fb.alreadyFilled) ==> r.order.None?)
    ensures Limited(u, t)
  {
    var x, y := fb.side, Other(fb.side);
    var q := s.engine.quoter.At(x);
    FlightDelivered(s, t);
    assert SideInv(x, q, Flight(s, Maker(x)), s.accounts);
    assert Flight(s, Maker(x)) == [Answered(fb)] && Flight(t, Maker(x)) == [];
    ConsumedFlows(x, q, t.engine.quoter.At(x), fb, s.accounts);
    if !fb.OrderFailed? {
      CreditConserves(s.accounts, fb.id, NewShares(q, fb), x);
      CreditConserves(s.accounts, fb.id, NewShares(q, fb), y);
    }
    OneMakerFills(u, s, t, x, NewShares(q, fb));
  }

  lemma TakenFlows(u: Setup, s: System, t: System, fb: Feedback)
    requires Inv(s) && Limited(u, s) && s.feedback != [] && fb == s.feedback[0] && fb.RebalanceResult?
    requires ConsumesTaken(s, t, fb)
    ensures Limited(u, t)
  {
    FlightDelivered(s, t);
    assert Flight(s, Taker) == [Answered(fb)] && Flight(t, Taker) == [];
    forall z ensures Flows(ExposureOf(u, s, z), ExposureOf(u, t, z)) {
      assert SideWithinLimits(u, ExposureOf(u, s, z), ExposureOf(u, s, Other(z)));
      assert z == fb.side || z == Other(fb.side);
    }
    FlowKeepsLimits(u, s, t);
  }

  lemma FeedbackClears(x: Side, q: SideQuote, fb: Feedback, accounts: seq<Account>)
    requires SideInv(x, q, [Answered(fb)], accounts)
    ensures !fb.CancelResult? ==> q.order.None?
  {
    assert OpFits(x, q, [Answered(fb)][0], accounts);
  }

  lemma DeliverKeepsLimits(u: Setup, s: System, fvYes: real)
    requires Inv(s) && Limited(u, s) && s.feedback != []
    ensures Limited(u, DeliverStep(s, fvYes))
  {
    var fb := s.feedback[0];
    var t := DeliverStep(s, fvYes);
    if fb.RebalanceResult? {
      DeliverConsumesTaken(s, fvYes);
      TakenFlows(u, s, t, fb);
    } else {
      var x := fb.side;
      DeliverConsumes(s, fvYes);
      var _, _ := DeliverQuote(s, fvYes);
      FlightDelivered(s, t);
      assert SideInv(x, s.engine.quoter.At(x), Flight(s, Maker(x)), s.accounts);
      assert Flight(s, Maker(x)) == [Answered(fb)];
      FeedbackClears(x, s.engine.quoter.At(x), fb, s.accounts);
      DeliverFlows(u, s, t, fb);
    }
  }

  // ── The executor ──

  lemma AnsweredFlows(x: Side, q: SideQuote, c: Command, f: Feedback, accounts: seq<Account>)
    requires AccountsInv(accounts) && SideInv(x, q, [Sent(c)], accounts)
    requires c.PostOrder? && f.OrderPosted? ==> 0.0 <= f.size <= c.size
    requires c.CancelOrder? ==> f.CancelResult?
    ensures 0.0 <= OpenSize(q, [Answered(f)]) <= OpenSize(q, [Sent(c)])
  {
    assert OpFits(x, q, [Sent(c)][0], accounts);
    OpenNonNegative(x, q, [Sent(c)], accounts);
  }

  lemma AnswerKeepsLimits(u: Setup, s: System, t: System, f: Feedback, x: Side)
    requires Inv(s) && Limited(u, s) && Answers(s, t, f) && ReplySlot(f) == Maker(x)
    requires NothingBooked(s.accounts, t.accounts)
    requires s.commands[0].PostOrder? && f.OrderPosted? ==> 0.0 <= f.size <= s.commands[0].size
    requires s.commands[0].CancelOrder? ==> f.CancelResult?
    ensures Limited(u, t)
  {
    assert SideInv(x, s.engine.quoter.At(x), Flight(s, Maker(x)), s.accounts);
    FlightAnswered(s, t, f);
    AnsweredFlows(x, s.engine.quoter.At(x), s.commands[0], f, s.accounts);
    assert Total(t.accounts, x, Recorded) == Total(s.accounts, x, Recorded);
    OneMakerFills(u, s, t, x, 0.0);
  }

  lemma PostKeepsLimits(u: Setup, s: System, r: PostResponse)
    requires Inv(s) && Limited(u, s) && Enabled(u, s, ExecPost(r))
    ensures Limited(u, PostStep(s, r))
  {
    var c := s.commands[0];
    var x := c.side;
    PostAnswerFits(u, s, r);
    assert SideInv(x, s.engine.quoter.At(x), Flight(s, Maker(x)), s.accounts);
    FlightAnswered(s, PostStep(s, r), ReplyToPost(s.cachesWarm, c.side, c.price, c.size, r));
    assert OpFits(x, s.engine.quoter.At(x), [Sent(c)][0], s.accounts);
    TruncateToCentsBounds(c.size);
    AnswerKeepsLimits(u, s, PostStep(s, r), ReplyToPost(s.cachesWarm, c.side, c.price, c.size, r), x);
  }

  lemma CancelKeepsLimits(u: Setup, s: System, stillLive: bool, reported: Option<real>)
    requires Inv(s) && Limited(u, s) && Enabled(u, s, ExecCancel(stillLive, reported))
    ensures Limited(u, CancelStep(s, stillLive, reported))
  {
    var t, c := CancelStep(s, stillLive, reported), s.commands[0];
    if c.id < |s.accounts| && !stillLive {
      UpdateBooksNothing(s.accounts, c.id, s.accounts[c.id].(live := false));
    } else {
      assert forall x :: Grown(x, s.accounts, s.accounts);
    }
    AnswerKeepsLimits(u, s, t, ReplyToCancel(c.side, c.id, reported), c.side);
  }

  /** An answered rebalance takes no more than its command might have. */
  lemma TakerAnswerKeepsLimits(u: Setup, s: System, t: System, f: Feedback)
    requires Inv(s) && Limited(u, s) && Answers(s, t, f) && t.accounts == s.accounts
    requires s.commands[0].RebalanceTaker? && f.RebalanceResult?
    requires f.side == s.commands[0].side && f.taken <= TakerLimit(u)
    ensures Limited(u, t)
  {
    FlightAnswered(s, t, f);
    assert Flight(s, Taker) == [Sent(s.commands[0])] && Flight(t, Taker) == [Answered(f)];
    forall z ensures Flows(ExposureOf(u, s, z), ExposureOf(u, t, z)) {
      assert SideWithinLimits(u, ExposureOf(u, s, z), ExposureOf(u, s, Other(z)));
    }
    FlowKeepsLimits(u, s, t);
  }

  lemma SentRebalanceIsSane(u: Setup, s: System, t: System, f: Feedback)
    requires Inv(s) && Limited(u, s) && Answers(s, t, f) && s.commands[0].RebalanceTaker?
    ensures TakerSane(u, [Sent(s.commands[0])])
  {
    FlightAnswered(s, t, f);
  }

  lemma RebalanceIsAnswered(u: Setup, s: System, r: TakerResponse)
    requires Enabled(u, s, ExecRebalance(r))
    ensures var c, t := s.commands[0], RebalanceStep(u, s, r);
            var f := ReplyToRebalance(s.cachesWarm, c.side, c.price, c.size, u.scale, r);
            Answers(s, t, f) && f.RebalanceResult? && t.accounts == s.accounts
  {
  }

  lemma RebalanceKeepsLimits(u: Setup, s: System, r: TakerResponse)
    requires Inv(s) && Limited(u, s) && Enabled(u, s, ExecRebalance(r))
    ensures Limited(u, RebalanceStep(u, s, r))
  {
    var t, c := RebalanceStep(u, s, r), s.commands[0];
    var f := ReplyToRebalance(s.cachesWarm, c.side, c.price, c.size, u.scale, r);
    RebalanceIsAnswered(u, s, r);
    SentRebalanceIsSane(u, s, t, f);
    RebalanceWithinLimit(u, c, s.cachesWarm, r);
    TakerAnswerKeepsLimits(u, s, t, f);
  }

  lemma RebalanceWithinLimit(u: Setup, c: Command, warm: bool, r: TakerResponse)
    requires c.RebalanceTaker? && TakerSane(u, [Sent(c)]) && u.scale > 0
    requires PriceUnits(c.price, u.scale) as real == c.price * u.scale as real
    ensures var f := ReplyToRebalance(warm, c.side, c.price, c.size, u.scale, r);
            f.side == c.side && f.taken <= TakerLimit(u)
  {
    assert [Sent(c)][0] == Sent(c);
    PositiveFactor(c.price, c.size);
    SafeSharesBound(c.price, c.size, u.scale, 100 / u.scale);
    if 100 % u.scale == 0 {
      assert u.scale * (100 / u.scale) == 100;
    }
  }

  // ── New commands ──

  /** A guarded post fits under the cap, is no larger than the largest order, and is only sent while the side
      is not too far ahead. */
  lemma GuardedPostFits(u: Setup, e: EngineState, x: Side, price: real)
    requires Configured(u) && MayQuote(x, price, e.position, u.cfg.quoting, u.cfg.risk)
    ensures var size := QuoteSize(u.cfg.quoting, e.Shares(x));
            && 0.0 < size <= u.cfg.quoting.maxOrderSize
            && e.Shares(x) + size <= TotalCap(u.cfg.quoting)
    ensures e.Shares(x) - e.Shares(Other(x)) < u.cfg.risk.maxUnpairedShares
  {
    var c := u.cfg.quoting;
    DynamicSizeBounds(c.maxOrderSize, c.minOrderSize, e.Shares(x), c.maxBatches);
  }

  /** A rebalance is only sent for the side that is behind. */
  lemma RebalanceIsBehind(u: Setup, e: EngineState)
    requires Configured(u) && RebalanceWanted(u.cfg, e)
    ensures e.Shares(RebalanceSide(e)) - e.Shares(Other(RebalanceSide(e))) <= -u.cfg.risk.rebalanceThreshold
    ensures CLOB_MIN <= RebalanceSize(u.cfg, e) <= Max(u.cfg.risk.rebalanceSize, CLOB_MIN)
    ensures RebalanceSize(u.cfg, e) * BestAsk(e.BookOf(RebalanceSide(e))).value >= 1.0
  {
  }

  /** One side after an engine step: either nothing opened, or a guarded post did. */
  lemma MakerOpens(u: Setup, e: EngineState, x: Side, q: SideQuote, r: SideQuote, flight: seq<Op>, sent: seq<Op>,
                   accounts: seq<Account>)
    requires Configured(u) && AccountsInv(accounts) && SideInv(x, q, flight, accounts)
    requires SideSends(x, q, r, sent) && PostsGuarded(u.cfg, e, x, sent)
    ensures OpenSize(r, flight + sent) == OpenSize(q, flight)
         || (&& 0.0 < OpenSize(r, flight + sent) <= u.cfg.quoting.maxOrderSize
             && e.Shares(x) + OpenSize(r, flight + sent) <= TotalCap(u.cfg.quoting)
             && e.Shares(x) - e.Shares(Other(x)) < u.cfg.risk.maxUnpairedShares)
  {
    SideSendsFits(x, q, r, sent, flight, accounts);
    if sent == [] {
      assert flight + sent == flight;
    } else {
      assert flight + sent == sent;
      assert sent[0] in sent;
      if sent[0].command.PostOrder? {
        GuardedPostFits(u, e, x, sent[0].command.price);
      }
    }
  }

  /** The taker slot after an engine step. */
  lemma TakerOpens(u: Setup, e: EngineState, x: Side, before: bool, after: bool, flight: seq<Op>, sent: seq<Op>)
    requires Configured(u) && TakerInv(before, flight) && TakerSane(u, flight) && TakerSends(before, after, sent)
    requires sent == [] || sent == RebalanceOp(u.cfg, e)
    ensures OpenTaker(u, x, flight + sent) == OpenTaker(u, x, flight)
         || (&& OpenTaker(u, x, flight + sent) == TakerLimit(u)
             && e.Shares(x) - e.Shares(Other(x)) < 0.0)
    ensures TakerSane(u, flight + sent)
  {
    if sent == [] {
      assert flight + sent == flight;
    } else {
      assert flight == [];
      assert flight + sent == sent;
      RebalanceIsBehind(u, e);
    }
  }

  /** Opening a guarded post, a rebalance for the lagging side, or both, stays within the limits. */
  lemma OpeningStaysWithinLimits(u: Setup, a: Exposure, b: Exposure, other: Exposure, after: Exposure)
    requires Configured(u) && SideWithinLimits(u, a, other)
    requires b.booked == a.booked && b.taken == a.taken && after.Shares() == other.Shares()
    requires b.open == a.open
          || (&& 0.0 < b.open <= u.cfg.quoting.maxOrderSize
              && a.Shares() + b.open <= TotalCap(u.cfg.quoting)
              && a.Shares() - other.Shares() < u.cfg.risk.maxUnpairedShares)
    requires b.openTaker == a.openTaker
          || (b.openTaker == TakerLimit(u) && a.Shares() - other.Shares() < 0.0)
    ensures SideWithinLimits(u, b, after)
  {
  }

  lemma EngineStepWithinLimits(u: Setup, s: System, t: System, x: Side, sent: seq<Op>, takes: seq<Op>)
    requires Configured(u) && Inv(s) && Limited(u, s)
    requires t.accounts == s.accounts && t.takerYes == s.takerYes && t.takerNo == s.takerNo
    requires SideSends(x, s.engine.quoter.At(x), t.engine.quoter.At(x), sent)
    requires PostsGuarded(u.cfg, s.engine, x, sent)
    requires TakerSends(s.engine.pendingRebalance, t.engine.pendingRebalance, takes)
    requires takes == [] || takes == RebalanceOp(u.cfg, s.engine)
    requires Flight(t, Maker(x)) == Flight(s, Maker(x)) + sent && Flight(t, Taker) == Flight(s, Taker) + takes
    ensures SideWithinLimits(u, ExposureOf(u, t, x), ExposureOf(u, t, Other(x)))
  {
    var q, r, flight := s.engine.quoter.At(x), t.engine.quoter.At(x), Flight(s, Maker(x));
    assert SideInv(x, q, flight, s.accounts);
    MakerOpens(u, s.engine, x, q, r, flight, sent, s.accounts);
    TakerOpens(u, s.engine, x, s.engine.pendingRebalance, t.engine.pendingRebalance, Flight(s, Taker), takes);
    assert SideWithinLimits(u, ExposureOf(u, s, x), ExposureOf(u, s, Other(x)));
    assert Conserved(s, x) && Conserved(s, Other(x));
    OpeningStaysWithinLimits(u, ExposureOf(u, s, x), ExposureOf(u, t, x),
                             ExposureOf(u, s, Other(x)), ExposureOf(u, t, Other(x)));
  }

  lemma EngineStepKeepsLimits(u: Setup, s: System, t: System, now: seq<Command>, later: seq<Command>)
    requires Configured(u) && Inv(s) && Limited(u, s) && EngineSends(u, s, t, now, later)
    ensures Limited(u, t)
  {
    var takes := CommandsOf(now, Taker) + CommandsOf(later, Taker);
    EngineSendsForTaker(u, s, t, now, later);
    forall x ensures SideWithinLimits(u, ExposureOf(u, t, x), ExposureOf(u, t, Other(x))) {
      EngineSendsOnSide(u, s, t, now, later, x);
      EngineStepWithinLimits(u, s, t, x, CommandsOf(now, Maker(x)) + CommandsOf(later, Maker(x)), takes);
    }
    TakerOpens(u, s.engine, Yes, s.engine.pendingRebalance, t.engine.pendingRebalance, Flight(s, Taker), takes);
  }

  // ── All steps, all runs ──

  lemma UnchangedKeepsLimits(u: Setup, s: System, t: System)
    requires Limited(u, s)
    requires t.engine.quoter == s.engine.quoter && t.takerYes == s.takerYes && t.takerNo == s.takerNo
    requires forall slot :: slot != Control ==> Flight(t, slot) == Flight(s, slot)
    requires forall x :: Total(t.accounts, x, Recorded) == Total(s.accounts, x, Recorded)
    ensures Limited(u, t)
  {
    forall x ensures ExposureOf(u, t, x) == ExposureOf(u, s, x) {
    }
    forall x ensures SideWithinLimits(u, ExposureOf(u, t, x), ExposureOf(u, t, Other(x))) {
      assert SideWithinLimits(u, ExposureOf(u, s, x), ExposureOf(u, s, Other(x)));
    }
  }

  lemma ExecutorKeepsLimits(u: Setup, s: System, a: Action)
    requires Configured(u) && Inv(s) && Limited(u, s) && Enabled(u, s, a)
    requires a.ExecRotation? || a.ExecPost? || a.ExecCancel? || a.ExecRebalance?
    ensures Limited(u, Next(u, s, a))
  {
    match a
    case ExecRotation(warmed) =>
      RotationMovesAlong(u, s, warmed);
      UnchangedKeepsLimits(u, s, Next(u, s, a));
    case ExecPost(r) => PostKeepsLimits(u, s, r);
    case ExecCancel(stillLive, reported) => CancelKeepsLimits(u, s, stillLive, reported);
    case ExecRebalance(r) => RebalanceKeepsLimits(u, s, r);
  }

  lemma MatchKeepsLimits(u: Setup, s: System, id: OrderId, amount: real)
    requires Inv(s) && Limited(u, s) && MatchPossible(s, id, amount)
    ensures Limited(u, MatchStep(s, id, amount))
  {
    UpdateBooksNothing(s.accounts, id, s.accounts[id].(matched := s.accounts[id].matched + amount));
    FlightSame(s, MatchStep(s, id, amount));
    UnchangedKeepsLimits(u, s, MatchStep(s, id, amount));
  }

  lemma StepKeepsLimits(u: Setup, s: System, a: Action)
    requires Configured(u) && Inv(s) && Limited(u, s) && Enabled(u, s, a)
    ensures Limited(u, Next(u, s, a))
  {
    if IsEngineStep(a) {
      var now, later := EngineStepSends(u, s, a);
      EngineStepKeepsLimits(u, s, Next(u, s, a), now, later);
    } else {
      match a
      case UserUpdate(id, isMatch, size) => UpdateKeepsLimits(u, s, id, isMatch, size);
      case Deliver(fvYes) => DeliverKeepsLimits(u, s, fvYes);
      case Match(id, amount) => MatchKeepsLimits(u, s, id, amount);
      case Flush =>
        FlushMovesAlong(s);
        UnchangedKeepsLimits(u, s, FlushStep(s));
      case _ => ExecutorKeepsLimits(u, s, a);
    }
  }

  lemma StartExposure(u: Setup, x: Side)
    ensures ExposureOf(u, START, x) == Exposure(0.0, 0.0, 0.0, 0.0) && Flight(START, Taker) == []
  {
    assert [MarketRotation][1..] == [];
    assert Flight(START, Maker(x)) == [];
  }

  lemma StartLimited(u: Setup)
    requires Configured(u)
    ensures Inv(START) && Limited(u, START)
  {
    StartInv();
    var c := u.cfg.quoting;
    RungTotalMonotone(c.maxOrderSize, c.minOrderSize, 0, c.maxBatches);
    forall x ensures SideWithinLimits(u, ExposureOf(u, START, x), ExposureOf(u, START, Other(x))) {
      StartExposure(u, x);
      StartExposure(u, Other(x));
    }
    StartExposure(u, Yes);
  }

  lemma {:induction false} RunKeepsLimits(u: Setup, s: System, run: seq<Action>)
    requires Configured(u) && Inv(s) && Limited(u, s) && RunFrom(u, s, run)
    ensures Inv(After(u, s, run)) && Limited(u, After(u, s, run))
    decreases |run|
  {
    if run != [] {
      StepKeepsLimits(u, s, run[0]);
      StepKeepsInv(u, s, run[0]);
      RunKeepsLimits(u, Next(u, s, run[0]), run[1..]);
    }
  }

  /** Maker cap: what was booked from maker orders plus what the side's one open or pending maker order can
      still fill never exceeds the sum of all batches. */
  lemma MakerCap(u: Setup, run: seq<Action>, x: Side)
    requires Configured(u) && RunFrom(u, START, run)
    ensures var s := After(u, START, run);
            Total(s.accounts, x, Recorded) + OpenSize(s.engine.quoter.At(x), Flight(s, Maker(x)))
              <= TotalCap(u.cfg.quoting)
  {
    StartLimited(u);
    RunKeepsLimits(u, START, run);
    var s := After(u, START, run);
    assert SideWithinLimits(u, ExposureOf(u, s, x), ExposureOf(u, s, Other(x)));
  }

  /** Imbalance bound: even if everything outstanding on a side fills and nothing on the other does, the side
      leads by less than the unpaired limit plus one order plus one rebalance. */
  lemma ImbalanceBound(u: Setup, run: seq<Action>, x: Side)
    requires Configured(u) && RunFrom(u, START, run)
    ensures var s := After(u, START, run);
            s.engine.Shares(x) - s.engine.Shares(Other(x))
              + OpenSize(s.engine.quoter.At(x), Flight(s, Maker(x))) + OpenTaker(u, x, Flight(s, Taker))
              < u.cfg.risk.maxUnpairedShares + u.cfg.quoting.maxOrderSize + TakerLimit(u)
  {
    StartLimited(u);
    RunKeepsLimits(u, START, run);
    var s := After(u, START, run);
    assert SideWithinLimits(u, ExposureOf(u, s, x), ExposureOf(u, s, Other(x)));
    assert Conserved(s, x) && Conserved(s, Other(x));
  }
}
