/** Flat books: in a reachable state in which nothing has filled yet, fills can make a pair cost a dollar exactly when
    the prices that can fill on the two sides add up to a dollar or more. */
module FlatBooks {
  import opened Common
  import opened Position
  import opened Quoting
  import opened Lifecycle
  import opened Protocol
  import opened ProtocolRuns
  import opened PairCost
  import opened OpenRoom
  import opened FillingUp
  import opened PeakCost

  // ── Until the first fill ──

  /** A step either leaves the position alone or adds one fill to it. */
  lemma StepFillsAtMostOnce(u: Setup, s: System, a: Action)
    requires Inv(s) && Enabled(u, s, a)
    ensures var p, r := s.engine.position, Next(u, s, a).engine.position;
            r == p || r.FillCount() == p.FillCount() + 1
  {
    if a.Tick? {
      var now, later := TickEngineSends(u, s, a.input);
    } else {
      StepFillsOpenPrices(u, s, a);
    }
  }

  lemma {:induction false} FillsNeverDecrease(u: Setup, s: System, run: seq<Action>)
    requires Inv(s) && RunFrom(u, s, run)
    ensures After(u, s, run).engine.position.FillCount() >= s.engine.position.FillCount()
    decreases |run|
  {
    if run != [] {
      StepFillsAtMostOnce(u, s, run[0]);
      StepKeepsInv(u, s, run[0]);
      FillsNeverDecrease(u, Next(u, s, run[0]), run[1..]);
    }
  }

  /** A level position is not rebalanced when the threshold is positive. */
  lemma EmptyNeverRebalances(u: Setup, s: System, a: Action)
    requires Inv(s) && Enabled(u, s, a) && u.cfg.risk.rebalanceThreshold > 0.0
    requires s.engine.position == EMPTY && !s.engine.pendingRebalance
    ensures !Next(u, s, a).engine.pendingRebalance
  {
    if a.Tick? {
      var now, later := TickEngineSends(u, s, a.input);
      EngineSendsForTaker(u, s, TickStep(u, s, a.input), now, later);
    } else {
      OnlyTicksRebalance(u, s, a);
    }
  }

  /** Nothing has filled and nothing has been rebalanced; open prices are below a dollar. */
  ghost predicate Flat(s: System) {
    Inv(s) && PairInv(s) && s.engine.position == EMPTY && !s.engine.pendingRebalance
  }

  lemma {:induction false} EmptyRunStaysFlat(u: Setup, s: System, run: seq<Action>)
    requires Prudent(u.cfg) && u.cfg.risk.rebalanceThreshold > 0.0
    requires Flat(s) && RunFrom(u, s, run) && InCents(run)
    requires After(u, s, run).engine.position == EMPTY
    ensures Flat(After(u, s, run))
    decreases |run|
  {
    if run != [] {
      var a, t := run[0], Next(u, s, run[0]);
      StepFillsAtMostOnce(u, s, a);
      StepKeepsInv(u, s, a);
      FillsNeverDecrease(u, t, run[1..]);
      assert t.engine.position == EMPTY;
      EmptyNeverRebalances(u, s, a);
      StepKeepsPairs(u, s, a);
      EmptyRunStaysFlat(u, t, run[1..]);
    }
  }

  lemma ReachedFlat(u: Setup, run: seq<Action>)
    requires Prudent(u.cfg) && u.cfg.risk.rebalanceThreshold > 0.0
    requires RunFrom(u, START, run) && InCents(run) && After(u, START, run).engine.position == EMPTY
    ensures Flat(After(u, START, run))
  {
    StartPairs();
    EmptyRunStaysFlat(u, START, run);
  }

  // ── Prices that can fill ──

  /** The price at which a side can still fill, if anything can: an order that has room at the exchange, or a post that
      will reach a warm executor. */
  ghost function FillablePrices(s: System, x: Side): set<real> {
    if Room(s, x) > 0.0 then {PriceOf(s, x)} else {}
  }

  /** Prices of both sides that can fill add up to less than a dollar. */
  ghost predicate FillableCompatible(s: System) {
    forall p, q :: p in FillablePrices(s, Yes) && q in FillablePrices(s, No) ==> p + q < 1.0
  }

  /** A side with room has a resting order, an accepted post to hear of, or a post under way. */
  lemma RoomHasAPrice(x: Side, q: SideQuote, flight: seq<Op>, accounts: seq<Account>)
    requires SideInv(x, q, flight, accounts)
    requires OrderRoom(q, flight, accounts) > 0.0 || exists op :: op in flight && op.Sent? && op.command.PostOrder?
    ensures MakerPrice(q, flight) in MakerPrices(q, flight)
  {
    if op :| op in flight && op.Sent? && op.command.PostOrder? {
      assert flight == [op];
      assert OpFits(x, q, flight[0], accounts);
    }
  }

  lemma RoomIsOpen(s: System, x: Side)
    requires Inv(s) && Room(s, x) > 0.0
    ensures PriceOf(s, x) in OpenPrices(s, x)
  {
    var q, flight := s.engine.quoter.At(x), Flight(s, Maker(x));
    assert SideInv(x, q, flight, s.accounts);
    if forall op :: op in flight && op.Sent? ==> !op.command.PostOrder? {
      NoPostUnderWay(s, x);
    }
    RoomHasAPrice(x, q, flight, s.accounts);
  }

  /** Every price that can fill is open. */
  lemma FillableIsOpen(s: System)
    requires Inv(s) && Compatible(s)
    ensures FillableCompatible(s)
  {
    forall p, q | p in FillablePrices(s, Yes) && q in FillablePrices(s, No) ensures p + q < 1.0 {
      RoomIsOpen(s, Yes);
      RoomIsOpen(s, No);
    }
  }

  lemma AverageOfEmpty(price: real, room: real)
    requires room >= 0.0
    ensures Avg(Bought(FLAT, price, room)) == if room > 0.0 then price else 0.0
  {
    if room > 0.0 {
      AvgOfOnePrice(Bought(FLAT, price, room), price);
    }
  }

  /** A side that holds nothing peaks at its price if it can fill, and at nothing otherwise. */
  lemma PeakOfEmpty(s: System, x: Side)
    requires Flat(s)
    ensures Peak(s, x) == if Room(s, x) > 0.0 then PriceOf(s, x) else 0.0
    ensures Room(s, x) > 0.0 ==> 0.0 <= PriceOf(s, x) < 1.0
  {
    RoomNonNegative(s, x);
    if Room(s, x) > 0.0 {
      RoomIsOpen(s, x);
    }
    assert s.engine.position.At(x) == FLAT;
    AverageOfEmpty(PriceOf(s, x), Room(s, x));
  }

  /** On an empty side a fill at any price but nothing raises the average, so none is forced down. */
  lemma PeaksAreReachedFromEmpty(u: Setup, s: System) returns (rest: seq<Action>)
    requires Flat(s)
    ensures RunFrom(u, s, rest) && NoTicks(rest)
    ensures After(u, s, rest).engine.position.AvgPairCost() == Peak(s, Yes) + Peak(s, No)
  {
    var p := Plan(true, true);
    rest := PlanIsCarriedOut(u, s, p);
    FilledFromEmpty(u, s, rest, Yes);
    FilledFromEmpty(u, s, rest, No);
  }

  lemma FilledFromEmpty(u: Setup, s: System, rest: seq<Action>, x: Side)
    requires Flat(s) && CarriesOut(u, s, rest, Plan(true, true))
    ensures Avg(After(u, s, rest).engine.position.At(x)) == Peak(s, x)
  {
    OnePriceASide(s, x);
    RunGrows(u, s, rest, x, PriceOf(s, x));
    PeakOfEmpty(s, x);
    assert x == Yes || x == No;
    SameAverage(s.engine.position.At(x), After(u, s, rest).engine.position.At(x), PriceOf(s, x));
    assert s.engine.position.At(x) == FLAT;
    RoomNonNegative(s, x);
    AverageOfEmpty(PriceOf(s, x), Room(s, x));
  }

  // ── Exactly the prices that can fill ──

  lemma PeaksAreThePrices(s: System)
    requires Flat(s)
    ensures FillableCompatible(s) <==> PeakPairCost(s) < 1.0
  {
    PeakOfEmpty(s, Yes);
    PeakOfEmpty(s, No);
    if Room(s, Yes) > 0.0 && Room(s, No) > 0.0 {
      assert PriceOf(s, Yes) in FillablePrices(s, Yes) && PriceOf(s, No) in FillablePrices(s, No);
    }
  }

  lemma FlatBookIsCheapExactly(u: Setup, s: System)
    requires Flat(s)
    ensures CheapUntilTheNextTick(u, s) <==> FillableCompatible(s)
  {
    PeaksAreThePrices(s);
    CalmIsCheapExactlyBelowThePeaks(u, s);
    var rest := PeaksAreReachedFromEmpty(u, s);
  }

  /** In every reachable state in which nothing has filled yet, fills keep pairs below a dollar until the next tick if
      and only if the prices that can fill on the two sides add up to less than a dollar; in particular if all open
      prices do. */
  lemma FillsStayCheapExactlyForFillablePrices(u: Setup, run: seq<Action>)
    requires Prudent(u.cfg) && u.cfg.risk.rebalanceThreshold > 0.0
    requires RunFrom(u, START, run) && InCents(run) && After(u, START, run).engine.position == EMPTY
    ensures CheapUntilTheNextTick(u, After(u, START, run)) <==> FillableCompatible(After(u, START, run))
    ensures Compatible(After(u, START, run)) ==> CheapUntilTheNextTick(u, After(u, START, run))
  {
    ReachedFlat(u, run);
    FlatBookIsCheapExactly(u, After(u, START, run));
    if Compatible(After(u, START, run)) {
      FillableIsOpen(After(u, START, run));
    }
  }
}
