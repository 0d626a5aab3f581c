/** What a quote tick, a pause or a dead heartbeat may send, side by side. */
module TickContract {
  import opened Common
  import opened Quoting
  import opened Orders
  import opened Strategy
  import opened Lifecycle
  import opened Protocol

  // ── Commands, one side at a time ──

  function CancelOp(x: Side, target: Option<OrderId>): seq<Op> {
    if target.None? then [] else [Sent(CancelOrder(x, target.value))]
  }

  lemma CancelCommandsOf(y: Side, target: Option<OrderId>, slot: Slot)
    ensures CommandsOf(CancelCommands(y, target), slot) == if slot == Maker(y) then CancelOp(y, target) else []
  {
    if target.Some? {
      assert CancelCommands(y, target)[1..] == [];
    }
  }

  function DecisionOp(x: Side, d: Decision): seq<Op> {
    match d
    case Hold => []
    case Post(price, size) => [Sent(PostOrder(x, price, size))]
    case Cancel(id) => [Sent(CancelOrder(x, id))]
  }

  lemma DecisionCommandsOf(y: Side, d: Decision, slot: Slot)
    ensures CommandsOf(DecisionCommands(y, d), slot) == if slot == Maker(y) then DecisionOp(y, d) else []
  {
    if !d.Hold? {
      assert DecisionCommands(y, d)[1..] == [];
    }
  }

  /** Side `x` cancels whatever it may cancel, or nothing. */
  ghost predicate MayCancel(x: Side, q: SideQuote, r: SideQuote, sent: seq<Op>) {
    || (r == q && sent == [])
    || (q.CancelTarget().Some? && r == q.CancelSent() && sent == CancelOp(x, q.CancelTarget()))
  }

  /** A cancel after another sending step only happens when that step did nothing. */
  lemma SendsCompose(x: Side, q: SideQuote, r: SideQuote, w: SideQuote, first: seq<Op>, second: seq<Op>)
    requires SideSends(x, q, r, first) && MayCancel(x, r, w, second)
    ensures first == [] || second == []
    ensures SideSends(x, q, w, first + second) && SideSends(x, q, w, second + first)
    ensures w.order == q.order && (first != [] ==> w == r)
  {
    if first == [] {
      assert first + second == second && second + first == second;
    } else {
      assert second == [];
      assert first + second == first && second + first == first;
    }
  }

  // ── Cancelling everything ──

  lemma CancelAllSends(q: QuoterState, x: Side)
    ensures MayCancel(x, q.At(x), CancelAllMarked(q).At(x), CommandsOf(CancelAllCommands(q), Maker(x)))
    ensures CommandsOf(CancelAllCommands(q), Taker) == []
  {
    var yes, no := CancelCommands(Yes, q.yes.CancelTarget()), CancelCommands(No, q.no.CancelTarget());
    CommandsOfConcat(yes, no, Maker(x));
    CommandsOfConcat(yes, no, Taker);
    CancelCommandsOf(Yes, q.yes.CancelTarget(), Maker(x));
    CancelCommandsOf(No, q.no.CancelTarget(), Maker(x));
    CancelCommandsOf(Yes, q.yes.CancelTarget(), Taker);
    CancelCommandsOf(No, q.no.CancelTarget(), Taker);
  }

  // ── Maker quoting ──

  /** A post that has passed every guard of the tick. */
  ghost predicate GuardedPost(cfg: Config, e: EngineState, m: TickInput, x: Side, price: real, size: real) {
    && Postable(cfg, e, m, x)
    && !(Lagging(e, x) && TakerWillHandle(cfg, e))
    && price == Target(m, x)
    && MayQuote(x, price, e.position, cfg.quoting, cfg.risk)
    && size == QuoteSize(cfg.quoting, e.Shares(x))
  }

  /** Everything a side may get from the maker phase. */
  ghost predicate MakerSends(cfg: Config, e: EngineState, m: TickInput, x: Side, r: SideQuote, sent: seq<Op>) {
    && SideSends(x, e.quoter.At(x), r, sent)
    && (forall op :: op in sent && op.Sent? && op.command.PostOrder? ==>
          GuardedPost(cfg, e, m, x, op.command.price, op.command.size))
  }

  lemma DecisionSends(cfg: Config, e: EngineState, m: TickInput, x: Side, postable: bool)
    requires postable == Postable(cfg, e, m, x)
    ensures var d := MakerDecision(cfg, e, m, x, postable);
            MakerSends(cfg, e, m, x, DecisionMarked(e.quoter.At(x), d), DecisionOp(x, d))
  {
  }

  lemma ZonePhaseSends(cfg: Config, e: EngineState, m: TickInput, x: Side, yes: bool, no: bool)
    ensures var zone := ZonePhase(e.quoter, yes, no);
            && MakerSends(cfg, e, m, x, zone.quoter.At(x), CommandsOf(zone.commands, Maker(x)))
            && CommandsOf(zone.commands, Taker) == []
  {
    var zy, zn := ZoneCancel(e.quoter.yes, yes), ZoneCancel(e.quoter.no, no);
    CommandsOfConcat(CancelCommands(Yes, zy), CancelCommands(No, zn), Maker(x));
    CommandsOfConcat(CancelCommands(Yes, zy), CancelCommands(No, zn), Taker);
    CancelCommandsOf(Yes, zy, Maker(x));
    CancelCommandsOf(No, zn, Maker(x));
    CancelCommandsOf(Yes, zy, Taker);
    CancelCommandsOf(No, zn, Taker);
  }

  lemma QuotePhaseSends(q: QuoterState, dy: Decision, dn: Decision, x: Side)
    ensures var quote := QuotePhase(q, dy, dn);
            var d := if x == Yes then dy else dn;
            && quote.quoter.At(x) == DecisionMarked(q.At(x), d)
            && CommandsOf(quote.commands, Maker(x)) == DecisionOp(x, d)
            && CommandsOf(quote.commands, Taker) == []
  {
    CommandsOfConcat(DecisionCommands(Yes, dy), DecisionCommands(No, dn), Maker(x));
    CommandsOfConcat(DecisionCommands(Yes, dy), DecisionCommands(No, dn), Taker);
    DecisionCommandsOf(Yes, dy, Maker(x));
    DecisionCommandsOf(No, dn, Maker(x));
    DecisionCommandsOf(Yes, dy, Taker);
    DecisionCommandsOf(No, dn, Taker);
  }

  lemma MakerPhaseSends(cfg: Config, e: EngineState, m: TickInput, x: Side)
    ensures var maker := MakerPhase(cfg, e, m);
            && MakerSends(cfg, e, m, x, maker.quoter.At(x), CommandsOf(maker.commands, Maker(x)))
            && CommandsOf(maker.commands, Taker) == []
  {
    var yes, no := Postable(cfg, e, m, Yes), Postable(cfg, e, m, No);
    ZonePhaseSends(cfg, e, m, x, yes, no);
    if !ZonePhase(e.quoter, yes, no).done {
      var dy, dn := MakerDecision(cfg, e, m, Yes, yes), MakerDecision(cfg, e, m, No, no);
      QuotePhaseSends(e.quoter, dy, dn, x);
      DecisionSends(cfg, e, m, x, if x == Yes then yes else no);
    }
  }

  // ── Taker rebalance ──

  /** The rebalance a tick may send. */
  function RebalanceOp(cfg: Config, e: EngineState): seq<Op> {
    if RebalanceWanted(cfg, e)
    then [Sent(RebalanceTaker(RebalanceSide(e), BestAsk(e.BookOf(RebalanceSide(e))).value, RebalanceSize(cfg, e)))]
    else []
  }

  lemma TakerPhaseSends(cfg: Config, e: EngineState, x: Side)
    ensures var (f, sent) := TakerPhase(cfg, e);
            && f.position == e.position && f.pending == e.pending
            && MayCancel(x, e.quoter.At(x), f.quoter.At(x), CommandsOf(sent, Maker(x)))
            && CommandsOf(sent, Taker) == RebalanceOp(cfg, e)
            && TakerSends(e.pendingRebalance, f.pendingRebalance, CommandsOf(sent, Taker))
  {
    if RebalanceWanted(cfg, e) {
      var side := RebalanceSide(e);
      var target := e.quoter.At(side).CancelTarget();
      var taker := [RebalanceTaker(side, BestAsk(e.BookOf(side)).value, RebalanceSize(cfg, e))];
      assert taker[1..] == [];
      CommandsOfConcat(CancelCommands(side, target), taker, Maker(x));
      CommandsOfConcat(CancelCommands(side, target), taker, Taker);
      CancelCommandsOf(side, target, Maker(x));
      CancelCommandsOf(side, target, Taker);
    }
  }

  // ── The whole tick ──

  /** Commands that a step adds to the engine's own buffer. */
  function Staged(e: EngineState, f: EngineState): seq<Command>
    requires |e.pending| <= |f.pending|
  {
    f.pending[|e.pending|..]
  }

  /** A side's share of everything a tick sends, now or through the buffer. */
  ghost predicate TickSends(cfg: Config, e: EngineState, m: TickInput, x: Side,
                            f: EngineState, now: seq<Command>, later: seq<Command>)
  {
    var sent := CommandsOf(now, Maker(x)) + CommandsOf(later, Maker(x));
    && SideSends(x, e.quoter.At(x), f.quoter.At(x), sent)
    && (forall op :: op in sent && op.Sent? && op.command.PostOrder? ==>
          GuardedPost(cfg, e, m, x, op.command.price, op.command.size))
  }

  lemma GuardedSends(cfg: Config, e: EngineState, m: TickInput, x: Side)
    ensures var g := Guarded(cfg, e, m);
            && g == e.(guardActive := g.guardActive, quoter := g.quoter, pending := g.pending)
            && (!g.guardActive ==> g.quoter == e.quoter && g.pending == e.pending)
            && e.pending <= g.pending
            && MayCancel(x, e.quoter.At(x), g.quoter.At(x), CommandsOf(Staged(e, g), Maker(x)))
            && CommandsOf(Staged(e, g), Taker) == []
  {
    CancelAllSends(e.quoter, x);
    var g := Guarded(cfg, e, m);
    if g.guardActive {
      assert Staged(e, g) == CancelAllCommands(e.quoter);
    } else {
      assert Staged(e, g) == [];
    }
  }

  /** A dark tick: cancels through the buffer, then perhaps a rebalance. */
  lemma DarkTickSends(cfg: Config, e: EngineState, m: TickInput, g: EngineState, x: Side)
    requires g == Guarded(cfg, e, m) && g.guardActive
    ensures e.pending <= g.pending
    ensures var (f, sent) := TakerPhase(cfg, g);
            TickSends(cfg, e, m, x, f, sent, Staged(e, g))
  {
    GuardedSends(cfg, e, m, x);
    TakerPhaseSends(cfg, g, x);
    var (f, sent) := TakerPhase(cfg, g);
    SendsCompose(x, e.quoter.At(x), g.quoter.At(x), f.quoter.At(x),
                 CommandsOf(Staged(e, g), Maker(x)), CommandsOf(sent, Maker(x)));
  }

  /** A maker phase followed by at most a cancel. */
  lemma MakerThenCancel(cfg: Config, e: EngineState, m: TickInput, x: Side, r: SideQuote, w: SideQuote,
                        first: seq<Op>, second: seq<Op>)
    requires MakerSends(cfg, e, m, x, r, first) && MayCancel(x, r, w, second)
    ensures MakerSends(cfg, e, m, x, w, first + second)
  {
    SendsCompose(x, e.quoter.At(x), r, w, first, second);
    forall op: Op | op in first + second && op.Sent? && op.command.PostOrder?
      ensures GuardedPost(cfg, e, m, x, op.command.price, op.command.size)
    {
      assert op in first;
    }
  }

  /** A lit tick: the maker phase, then perhaps a rebalance. */
  lemma LitTickSends(cfg: Config, e: EngineState, m: TickInput, maker: MakerOutcome, x: Side)
    requires MakerSends(cfg, e, m, x, maker.quoter.At(x), CommandsOf(maker.commands, Maker(x)))
    ensures var (f, sent) := TakerPhase(cfg, e.(quoter := maker.quoter));
            TickSends(cfg, e, m, x, f, maker.commands + sent, [])
  {
    var (f, sent) := TakerPhase(cfg, e.(quoter := maker.quoter));
    TakerPhaseSends(cfg, e.(quoter := maker.quoter), x);
    var first, second := CommandsOf(maker.commands, Maker(x)), CommandsOf(sent, Maker(x));
    MakerThenCancel(cfg, e, m, x, maker.quoter.At(x), f.quoter.At(x), first, second);
    CommandsOfConcat(maker.commands, sent, Maker(x));
    assert first + second + [] == first + second;
  }

  /** The guard flag plays no part in quoting or rebalancing. */
  lemma GuardFlagIrrelevant(cfg: Config, e: EngineState, g: EngineState, m: TickInput, x: Side)
    requires g == e.(guardActive := g.guardActive)
    ensures forall price, size :: GuardedPost(cfg, g, m, x, price, size) == GuardedPost(cfg, e, m, x, price, size)
    ensures forall r, sent :: MakerSends(cfg, g, m, x, r, sent) ==> MakerSends(cfg, e, m, x, r, sent)
  {
    assert Postable(cfg, g, m, x) == Postable(cfg, e, m, x);
    forall price, size
      ensures GuardedPost(cfg, g, m, x, price, size) == GuardedPost(cfg, e, m, x, price, size)
    {
    }
  }

  /** What a tick does to the engine besides its quotes, and what it sends for the taker. */
  ghost predicate TickTaker(cfg: Config, e: EngineState, f: EngineState, now: seq<Command>, later: seq<Command>) {
    && f.position == e.position && f.pending == e.pending + later
    && (CommandsOf(now, Taker) == [] || CommandsOf(now, Taker) == RebalanceOp(cfg, e))
    && CommandsOf(later, Taker) == []
    && TakerSends(e.pendingRebalance, f.pendingRebalance, CommandsOf(now, Taker))
  }

  lemma RebalanceFrame(cfg: Config, e: EngineState, g: EngineState)
    requires g.position == e.position && g.yesBook == e.yesBook && g.noBook == e.noBook
    requires g.pendingRebalance == e.pendingRebalance
    ensures RebalanceOp(cfg, g) == RebalanceOp(cfg, e)
  {
  }

  lemma NothingSent(cfg: Config, e: EngineState, m: TickInput, x: Side)
    ensures TickSends(cfg, e, m, x, e, [], []) && TickTaker(cfg, e, e, [], [])
  {
    assert e.pending + [] == e.pending;
  }

  lemma LitTick(cfg: Config, e: EngineState, g: EngineState, m: TickInput, x: Side)
    requires g == e.(guardActive := g.guardActive)
    ensures var maker := MakerPhase(cfg, g, m);
            var g2 := g.(quoter := maker.quoter);
            var (f, taker) := TakerPhase(cfg, g2);
            && TickSends(cfg, e, m, x, g2, maker.commands, []) && TickTaker(cfg, e, g2, maker.commands, [])
            && TickSends(cfg, e, m, x, f, maker.commands + taker, [])
            && TickTaker(cfg, e, f, maker.commands + taker, [])
  {
    var maker := MakerPhase(cfg, g, m);
    var g2 := g.(quoter := maker.quoter);
    MakerPhaseSends(cfg, g, m, x);
    GuardFlagIrrelevant(cfg, e, g, m, x);
    assert CommandsOf(maker.commands, Maker(x)) + [] == CommandsOf(maker.commands, Maker(x));
    assert e.pending + [] == e.pending;
    LitTickSends(cfg, g, m, maker, x);
    TakerPhaseSends(cfg, g2, x);
    RebalanceFrame(cfg, e, g2);
    CommandsOfConcat(maker.commands, TakerPhase(cfg, g2).1, Taker);
  }

  lemma DarkTick(cfg: Config, e: EngineState, g: EngineState, m: TickInput, x: Side)
    requires g == Guarded(cfg, e, m) && g.guardActive
    ensures var (f, taker) := TakerPhase(cfg, g);
            && e.pending <= g.pending
            && TickSends(cfg, e, m, x, g, [], Staged(e, g)) && TickTaker(cfg, e, g, [], Staged(e, g))
            && TickSends(cfg, e, m, x, f, taker, Staged(e, g)) && TickTaker(cfg, e, f, taker, Staged(e, g))
  {
    GuardedSends(cfg, e, m, x);
    DarkTickSends(cfg, e, m, g, x);
    TakerPhaseSends(cfg, g, x);
    RebalanceFrame(cfg, e, g);
    assert [] + CommandsOf(Staged(e, g), Maker(x)) == CommandsOf(Staged(e, g), Maker(x));
  }

  /** What `f` and `now` are to side `x`: everything sent to it, and to the taker, fits. */
  ghost predicate SendsWell(cfg: Config, e: EngineState, m: TickInput, x: Side, f: EngineState, now: seq<Command>) {
    e.pending <= f.pending
    && TickSends(cfg, e, m, x, f, now, Staged(e, f)) && TickTaker(cfg, e, f, now, Staged(e, f))
  }

  lemma LitTickSendsWell(cfg: Config, e: EngineState, g: EngineState, m: TickInput, x: Side)
    requires g == e.(guardActive := false)
    ensures SendsWell(cfg, e, m, x, GuardedTick(cfg, g, m).0, GuardedTick(cfg, g, m).1)
  {
    LitTick(cfg, e, g, m, x);
    NothingSent(cfg, e, m, x);
    TakerPhaseSends(cfg, g.(quoter := MakerPhase(cfg, g, m).quoter), x);
    assert Staged(e, GuardedTick(cfg, g, m).0) == [];
  }

  lemma DarkTickSendsWell(cfg: Config, e: EngineState, g: EngineState, m: TickInput, x: Side)
    requires g == Guarded(cfg, e, m) && g.guardActive
    ensures SendsWell(cfg, e, m, x, GuardedTick(cfg, g, m).0, GuardedTick(cfg, g, m).1)
  {
    DarkTick(cfg, e, g, m, x);
    TakerPhaseSends(cfg, g, x);
    var (f, taker) := TakerPhase(cfg, g);
    assert Staged(e, f) == Staged(e, g);
    assert [] + taker == taker;
    assert g.(quoter := g.quoter) == g;
  }

  /** Every branch of the tick, from one side's point of view. */
  lemma TickSendsOnSide(cfg: Config, e: EngineState, m: TickInput, x: Side)
    ensures SendsWell(cfg, e, m, x, QuoteTick(cfg, e, m).0, QuoteTick(cfg, e, m).1)
  {
    NothingSent(cfg, e, m, x);
    var g := Guarded(cfg, e, m);
    GuardedSends(cfg, e, m, x);
    if g.guardActive {
      DarkTickSendsWell(cfg, e, g, m, x);
    } else {
      LitTickSendsWell(cfg, e, g, m, x);
    }
    assert Staged(e, e) == [];
  }
}
