/** The drain test says that nothing is open while a filled rebalance waits in the channel. */
module UnfinishedDrain {
  import opened Common
  import opened FillEngine
  import opened Orders
  import opened Strategy
  import opened Lifecycle
  import opened Protocol
  import opened TakerAccounting
  import opened Drain
  import opened Episodes
  import opened DearPairs

  lemma UnheraldedLooksDone(cfg: Config, ask: real, taken: real)
    requires Trades(cfg) && taken > 0.0
    ensures var s := Unheralded(cfg, ask, taken);
            && NoOpenPosition(s.engine) && s.engine.pendingRebalance && s.engine.Shares(Yes) == 0.0
            && exists f :: f in s.feedback && FilledAnswer(f, Yes)
  {
    OneFilledState(cfg, ask);
    assert RebalanceResult(Yes, true, taken, ask) in Unheralded(cfg, ask, taken).feedback;
  }

  /** A whole-cent run with reliable cancels after which the test says that nothing is open, no order can be matched
      any further, and still the exchange has sold shares that the position does not show. */
  lemma DoneWithoutThePosition(u: Setup, cents: nat)
    requires Trades(u.cfg) && LetsThrough(u.cfg, Ticks(cents, CENT)) && u.scale == 100
    ensures exists run :: RunFrom(u, START, run) && Ordinary(u, run)
                       && NoOpenPosition(After(u, START, run).engine) && HidesShares(u, run)
  {
    var ask := Ticks(cents, CENT);
    var taken := RebalanceIsAnswered(u, cents);
    var s := Unheralded(u.cfg, ask, taken);
    UnheraldedLooksDone(u.cfg, ask, taken);
    var run :| RunFrom(u, START, run) && Ordinary(u, run) && After(u, START, run) == s;
    HidingRun(u, run);
  }

  /** The side holds nothing although the exchange has sold it shares. */
  ghost predicate HidesShares(u: Setup, run: seq<Action>)
    requires RunFrom(u, START, run)
  {
    var s := After(u, START, run);
    s.engine.pendingRebalance && s.engine.Shares(Yes) == 0.0
    && Total(s.accounts, Yes, Matched) + Sold(u, START, run, Yes) > 0.0
  }

  lemma HidingRun(u: Setup, run: seq<Action>)
    requires RunFrom(u, START, run) && Ordinary(u, run)
    requires NoOpenPosition(After(u, START, run).engine) && After(u, START, run).engine.pendingRebalance
    requires After(u, START, run).engine.Shares(Yes) == 0.0
    requires exists f :: f in After(u, START, run).feedback && FilledAnswer(f, Yes)
    ensures HidesShares(u, run)
  {
    DrainedShares(u, run, Yes);
    UnheardIsInTheChannel(After(u, START, run), Yes);
  }
}
