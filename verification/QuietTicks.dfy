/** Quote ticks on which the buildup guard stays lit and no resting order leaves the zone: each side gets its
    decision, then the rebalance gets its turn. */
module QuietTicks {
  import opened Common
  import opened Position
  import opened Sizing
  import opened Quoting
  import opened Orders
  import opened BuildupGuard
  import opened Strategy

  const SILENT := Signals(Signal(0.0, None), Signal(0.0, None), Signal(0.0, None))

  ghost function DecisionOn(cfg: Config, e: EngineState, m: TickInput, x: Side): Decision {
    MakerDecision(cfg, e, m, x, Postable(cfg, e, m, x))
  }

  /** The tick runs to its end. */
  ghost predicate Quiet(cfg: Config, e: EngineState, m: TickInput) {
    && TickOpen(cfg, e, m) && m.tokensKnown
    && m.signals == SILENT && !e.guardActive && 0.0 < cfg.risk.goDark
    && forall x :: ZoneCancel(e.quoter.At(x), Postable(cfg, e, m, x)).None?
  }

  lemma SilentGuardStaysLit(cfg: Config, e: EngineState, m: TickInput)
    requires m.signals == SILENT && !e.guardActive && 0.0 < cfg.risk.goDark
    ensures Guarded(cfg, e, m) == e
  {
    assert Score(m.signals) == 0.0;
  }

  lemma QuietTick(cfg: Config, e: EngineState, m: TickInput)
    requires Quiet(cfg, e, m)
    ensures var quote := QuotePhase(e.quoter, DecisionOn(cfg, e, m, Yes), DecisionOn(cfg, e, m, No));
            var (f, taker) := TakerPhase(cfg, e.(quoter := quote.quoter));
            QuoteTick(cfg, e, m) == (f, quote.commands + taker)
  {
    SilentGuardStaysLit(cfg, e, m);
    assert ZoneCancel(e.quoter.At(Yes), Postable(cfg, e, m, Yes)).None?;
    assert ZoneCancel(e.quoter.At(No), Postable(cfg, e, m, No)).None?;
    assert !ZonePhase(e.quoter, Postable(cfg, e, m, Yes), Postable(cfg, e, m, No)).done;
    assert MakerPhase(cfg, e, m) == QuotePhase(e.quoter, DecisionOn(cfg, e, m, Yes), DecisionOn(cfg, e, m, No));
  }

  lemma PostAndHold(q: QuoterState, x: Side, price: real, size: real)
    ensures var d := Post(price, size);
            QuotePhase(q, if x == Yes then d else Hold, if x == No then d else Hold)
            == MakerOutcome(q.With(x, q.At(x).MarkPost()), [PostOrder(x, price, size)], false)
  {
  }

  lemma HoldBoth(q: QuoterState)
    ensures QuotePhase(q, Hold, Hold) == MakerOutcome(q, [], false)
  {
  }

  lemma NoRebalance(cfg: Config, e: EngineState, q: QuoterState)
    requires !RebalanceWanted(cfg, e)
    ensures TakerPhase(cfg, e.(quoter := q)) == (e.(quoter := q), [])
  {
    assert !RebalanceWanted(cfg, e.(quoter := q));
  }

  lemma OnlyRebalance(cfg: Config, e: EngineState)
    requires RebalanceWanted(cfg, e) && e.quoter.At(RebalanceSide(e)).CancelTarget().None?
    ensures var x := RebalanceSide(e);
            TakerPhase(cfg, e) == (e.(pendingRebalance := true),
                                   [RebalanceTaker(x, BestAsk(e.BookOf(x)).value, RebalanceSize(cfg, e))])
  {
    var x := RebalanceSide(e);
    var take := [RebalanceTaker(x, BestAsk(e.BookOf(x)).value, RebalanceSize(cfg, e))];
    assert [] + take == take;
    assert e.(quoter := e.quoter.With(x, e.quoter.At(x))) == e;
  }

  /** One side posts, the other holds, and nothing is rebalanced. */
  lemma PostingTick(cfg: Config, e: EngineState, m: TickInput, x: Side, price: real, size: real)
    requires Quiet(cfg, e, m) && !RebalanceWanted(cfg, e)
    requires DecisionOn(cfg, e, m, x) == Post(price, size) && DecisionOn(cfg, e, m, Other(x)) == Hold
    ensures QuoteTick(cfg, e, m)
         == (e.(quoter := e.quoter.With(x, e.quoter.At(x).MarkPost())), [PostOrder(x, price, size)])
  {
    QuietTick(cfg, e, m);
    PostAndHold(e.quoter, x, price, size);
    NoRebalance(cfg, e, e.quoter.With(x, e.quoter.At(x).MarkPost()));
    assert [PostOrder(x, price, size)] + [] == [PostOrder(x, price, size)];
  }

  /** Both sides hold, and the lagging side is bought. */
  lemma RebalancingTick(cfg: Config, e: EngineState, m: TickInput)
    requires Quiet(cfg, e, m) && RebalanceWanted(cfg, e)
    requires DecisionOn(cfg, e, m, Yes) == Hold && DecisionOn(cfg, e, m, No) == Hold
    requires e.quoter.At(RebalanceSide(e)).CancelTarget().None?
    ensures var x := RebalanceSide(e);
            QuoteTick(cfg, e, m)
            == (e.(pendingRebalance := true),
                [RebalanceTaker(x, BestAsk(e.BookOf(x)).value, RebalanceSize(cfg, e))])
  {
    QuietTick(cfg, e, m);
    HoldBoth(e.quoter);
    OnlyRebalance(cfg, e);
    assert e.(quoter := e.quoter) == e;
  }

  /** An idle side that holds nothing posts the first rung of the ladder at its target. */
  lemma FirstPost(cfg: Config, e: EngineState, m: TickInput, x: Side, target: real)
    requires Postable(cfg, e, m, x) && Target(m, x) == target && BestAsk(e.BookOf(x)).None?
    requires e.quoter.At(x).order.None? && !e.quoter.At(x).Pending()
    requires e.Shares(x) == 0.0 <= e.Shares(Other(x))
    requires Lagging(e, x) ==> !TakerWillHandle(cfg, e)
    requires 0.0 < cfg.quoting.minOrderSize <= cfg.quoting.maxOrderSize && 0 < cfg.quoting.maxBatches
    requires 0.0 < cfg.risk.maxUnpairedShares && cfg.quoting.minEdge <= 1.0 - target
    requires 0.0 < target && Avg(e.position.At(Other(x))) + target < 1.0
    requires Notional(target, cfg.quoting.maxOrderSize) >= 1.0
    ensures DecisionOn(cfg, e, m, x) == Post(target, cfg.quoting.maxOrderSize)
  {
    var q := cfg.quoting;
    PostSizeAtARung(q.maxOrderSize, q.minOrderSize, q.maxBatches, 0);
    RungTotalMonotone(q.maxOrderSize, q.minOrderSize, 0, q.maxBatches);
    assert RungTotal(q.maxOrderSize, q.minOrderSize, 0) == 0.0;
    assert QuoteSize(q, e.Shares(x)) == q.maxOrderSize;
    assert MayQuote(x, target, e.position, q, cfg.risk);
  }
}
