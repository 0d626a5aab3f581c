/** The pair-cost guard of the rebalance: exactly which limits make it keep pairs below a dollar. */
module RebalanceGuard {
  import opened Common
  import opened FillEngine
  import opened Position
  import opened Quoting
  import opened Orders
  import opened Strategy
  import opened PairCost

  /** The engine's answer to a filled rebalance at the best ask. */
  ghost function Rebalanced(e: EngineState, taken: real): Totals
    requires BestAsk(e.BookOf(RebalanceSide(e))).Some?
  {
    var side := RebalanceSide(e);
    OnFeedback(e, RebalanceResult(side, true, taken, BestAsk(e.BookOf(side)).value), 0.5).position
  }

  /** No wanted rebalance that fills, in full or in part, makes a pair cost a dollar. */
  ghost predicate RebalancesKeepPairsCheap(cfg: Config) {
    forall e: EngineState, taken: real :: CheapPairs(e.position) && RebalanceWanted(cfg, e) && taken > 0.0 ==>
      CheapPairs(Rebalanced(e, taken))
  }

  lemma WantedRebalanceKeepsPairsCheap(cfg: Config, e: EngineState, taken: real)
    requires cfg.risk.rebalanceMaxPairCost < 1.0
    requires CheapPairs(e.position) && RebalanceWanted(cfg, e) && taken > 0.0
    ensures CheapPairs(Rebalanced(e, taken))
  {
    var side := RebalanceSide(e);
    var ask := BestAsk(e.BookOf(side)).value;
    PositiveFactor(ask, RebalanceSize(cfg, e));
    AvgNonNegative(e.position.At(Other(side)));
    var f := Fill(side, ask, taken, true, TakerFee(ask, taken));
    GuardedFillKeepsPairsCheap(e.position, f);
    assert Rebalanced(e, taken) == Apply(e.position, f);
  }

  /** `n` shares of NO bought at fifty cents each, and a YES ask of fifty cents. */
  ghost function HalfWay(n: real): EngineState {
    EngineState(Totals(FLAT, SideTotals(n, 0.5 * n, 0.0, 0.0, 1)), QuoterState(IDLE, IDLE), false, [], false, false,
                true, 0, Some(Book(0, Some(0.5))), None)
  }

  lemma HalfWayCostsHalf(n: real)
    requires n > 0.0
    ensures Avg(HalfWay(n).position.no) == 0.5 && Avg(HalfWay(n).position.yes) == 0.0
    ensures CheapPairs(HalfWay(n).position)
    ensures RebalanceSide(HalfWay(n)) == Yes && Abs(Imbalance(HalfWay(n))) == n
  {
    AvgOfOnePrice(HalfWay(n).position.no, 0.5);
  }

  /** A limit of a dollar or more lets the second half through, at fifty cents as well. */
  lemma SecondHalfIsWanted(cfg: Config, n: real)
    requires cfg.risk.rebalanceMaxPairCost >= 1.0
    requires n > 0.0 && n >= cfg.risk.rebalanceThreshold
    ensures RebalanceWanted(cfg, HalfWay(n))
    ensures !CheapPairs(Rebalanced(HalfWay(n), 1.0))
  {
    HalfWayCostsHalf(n);
    MulMono(CLOB_MIN, RebalanceSize(cfg, HalfWay(n)), 0.5);
    var p := Rebalanced(HalfWay(n), 1.0);
    AvgOfOnePrice(p.yes, 0.5);
    assert Avg(p.yes) == 0.5 && p.no == HalfWay(n).position.no;
  }

  /** The guard keeps pairs below a dollar if and only if its limit lies below a dollar. */
  lemma GuardKeepsPairsCheapExactlyBelowADollar(cfg: Config)
    ensures RebalancesKeepPairsCheap(cfg) <==> cfg.risk.rebalanceMaxPairCost < 1.0
  {
    if cfg.risk.rebalanceMaxPairCost < 1.0 {
      forall e: EngineState, taken: real | CheapPairs(e.position) && RebalanceWanted(cfg, e) && taken > 0.0
        ensures CheapPairs(Rebalanced(e, taken))
      {
        WantedRebalanceKeepsPairsCheap(cfg, e, taken);
      }
    } else {
      var n := Max(1.0, cfg.risk.rebalanceThreshold);
      HalfWayCostsHalf(n);
      SecondHalfIsWanted(cfg, n);
      assert !CheapPairs(Rebalanced(HalfWay(n), 1.0));
    }
  }
}
