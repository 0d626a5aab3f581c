/** The strategy engine: how it reacts to fills, executor feedback and the periodic quote tick.

    Each handler is given twice: as a function on engine states, about which everything else is proved, and
    as a method of the mutable engine, proved to compute that function. */
module Strategy {
  import opened Common
  import opened FillEngine
  import opened Position
  import opened Quoting
  import opened Orders
  import opened BuildupGuard

  datatype Config = Config(quoting: QuotingConfig, risk: RiskConfig, maxMomentumAdj: real)

  datatype Book = Book(timestampMs: nat, bestAsk: Option<real>)

  datatype EngineState = EngineState(
    position: Totals, quoter: QuoterState,
    pendingRebalance: bool, pending: seq<Command>,
    guardActive: bool, paused: bool,
    heartbeatHealthy: bool, heartbeatFailures: nat,
    yesBook: Option<Book>, noBook: Option<Book>)
  {
    function Shares(side: Side): real {
      position.At(side).shares
    }

    function BookOf(side: Side): Option<Book> {
      if side == Yes then yesBook else noBook
    }

    function WithBook(side: Side, b: Option<Book>): EngineState {
      if side == Yes then this.(yesBook := b) else this.(noBook := b)
    }
  }

  /** What a quote tick reads besides the engine's own order state. */
  datatype TickInput = TickInput(
    now: nat, quoting: bool, draining: bool, tokensKnown: bool,
    fvWarm: bool, volStale: bool, volWarm: bool,
    fvYes: real, edge: real, momentum: real,
    marketEnd: nat, tick: real, signals: Signals)

  // ── Fills reported by the user channel ──

  function MatchedSide(q: QuoterState, id: OrderId): Option<Side> {
    if q.yes.order.Some? && q.yes.order.value.id == id then Some(Yes)
    else if q.no.order.Some? && q.no.order.value.id == id then Some(No)
    else None
  }

  function OnTradeStatus(e: EngineState, id: OrderId, matched: bool, size: Option<real>): EngineState {
    if !matched || size.None? || size.value <= 0.0 || MatchedSide(e.quoter, id).None? then e
    else
      var side := MatchedSide(e.quoter, id).value;
      var q := e.quoter.At(side);
      var o := q.order.value;
      var delta := q.WsDelta(size.value);
      if delta <= 0.0 then e.(quoter := e.quoter.With(side, q.WsRecorded(size.value)))
      else
        e.(position := e.position.Record(side, o.price, delta, false, 0.0),
           quoter := e.quoter.With(side, q.WsRecorded(size.value).Filled(size.value >= o.size)))
  }

  // ── Executor feedback ──

  function BestAsk(b: Option<Book>): Option<real> {
    if b.None? then None else b.value.bestAsk
  }

  function BestAskOrOne(b: Option<Book>): real {
    if BestAsk(b).None? then 1.0 else BestAsk(b).value
  }

  function Expired(b: Option<Book>): Option<Book> {
    if b.None? then None else Some(b.value.(timestampMs := 0))
  }

  function FairValue(fvYes: real, side: Side): real {
    if side == Yes then fvYes else 1.0 - fvYes
  }

  function OnFeedback(e: EngineState, fb: Feedback, fvYes: real): EngineState {
    match fb
    case OrderPosted(side, id, price, size, alreadyFilled) =>
      var q := e.quoter.At(side);
      if alreadyFilled then
        e.(position := e.position.Record(side, price, size, false, 0.0),
           quoter := e.quoter.With(side, q.PostFailed()))
      else
        var o := ManagedOrder(id, price, size, FairValue(fvYes, side), BestAskOrOne(e.BookOf(side)), 0.0);
        e.(quoter := e.quoter.With(side, q.Posted(o)))
    case OrderFailed(side) =>
      e.(quoter := e.quoter.With(side, e.quoter.At(side).PostFailed()))
       .WithBook(side, Expired(e.BookOf(side)))
    case CancelResult(side, id, sizeMatched) =>
      var q := e.quoter.At(side);
      e.(position := RecordCancelDelta(e.position, side, q.Lookup(id), sizeMatched),
         quoter := e.quoter.With(side, q.CancelDone()))
    case RebalanceResult(side, filled, taken, price) =>
      e.(position := if filled && taken > 0.0
                     then e.position.Record(side, price, taken, true, TakerFee(price, taken))
                     else e.position,
         pendingRebalance := false)
  }

  /** Records the part of a cancel result that was not recorded before. */
  function RecordCancelDelta(p: Totals, side: Side, known: Option<(real, real)>, sizeMatched: Option<real>): Totals {
    if sizeMatched.None? || sizeMatched.value <= 0.0 || known.None? then p
    else
      var delta := sizeMatched.value - known.value.1;
      if delta > 0.0 then p.Record(side, known.value.0, delta, false, 0.0) else p
  }

  // ── Cancels ──

  function CancelCommands(side: Side, target: Option<OrderId>): seq<Command> {
    if target.None? then [] else [CancelOrder(side, target.value)]
  }

  function MarkCancel(q: SideQuote, target: Option<OrderId>): SideQuote {
    if target.None? then q else q.CancelSent()
  }

  function CancelAllCommands(q: QuoterState): seq<Command> {
    CancelCommands(Yes, q.yes.CancelTarget()) + CancelCommands(No, q.no.CancelTarget())
  }

  function CancelAllMarked(q: QuoterState): QuoterState {
    QuoterState(MarkCancel(q.yes, q.yes.CancelTarget()), MarkCancel(q.no, q.no.CancelTarget()))
  }

  /** Cancels everything through the engine's own command buffer. */
  function StageCancels(e: EngineState): EngineState {
    e.(quoter := CancelAllMarked(e.quoter), pending := e.pending + CancelAllCommands(e.quoter))
  }

  function OnHeartbeat(cfg: Config, e: EngineState, success: bool): EngineState {
    if success then e.(heartbeatFailures := 0, heartbeatHealthy := true)
    else
      var e1 := e.(heartbeatFailures := e.heartbeatFailures + 1);
      if e1.heartbeatFailures >= cfg.risk.heartbeatDeadThreshold && e.heartbeatHealthy
      then StageCancels(e1.(heartbeatHealthy := false))
      else e1
  }

  function SetPaused(e: EngineState, paused: bool): (EngineState, seq<Command>) {
    if paused then (e.(paused := true, quoter := CancelAllMarked(e.quoter)), CancelAllCommands(e.quoter))
    else (e.(paused := false), [])
  }

  // ── Risk-adjusted posting zone ──

  function RebalanceRisk(conviction: real, timePressure: real, alignment: real): real {
    Clamp(conviction * (0.3 + 0.7 * timePressure) * (1.0 + 0.5 * alignment), 0.0, 1.0)
  }

  function DynamicMaxPost(configMax: real, risk: real): real {
    0.50 + (configMax - 0.50) * (1.0 - risk)
  }

  /** More risk narrows the zone, never beyond an even price. */
  lemma DynamicMaxBounds(configMax: real, risk: real)
    requires 0.5 <= configMax && 0.0 <= risk <= 1.0
    ensures 0.5 <= DynamicMaxPost(configMax, risk) <= configMax
  {
    var width := configMax - 0.5;
    assert DynamicMaxPost(configMax, risk) == configMax - width * risk;
    MulMono(0.0, risk, width);
    MulMono(risk, 1.0, width);
  }

  function TickRisk(cfg: Config, m: TickInput): real {
    var conviction := Abs(m.fvYes - 0.5) * 2.0;
    var timePressure := 1.0 - Clamp(SaturatingSub(m.marketEnd, m.now) as real / 300000.0, 0.0, 1.0);
    var direction := if m.fvYes >= 0.5 then 1.0 else -1.0;
    var alignment := Clamp(m.momentum * direction / Max(cfg.maxMomentumAdj, 0.001), -1.0, 1.0);
    RebalanceRisk(conviction, timePressure, alignment)
  }

  /** Highest price the tick may post; one minus it is the lowest. */
  function ZoneMax(cfg: Config, m: TickInput): real {
    DynamicMaxPost(cfg.quoting.maxFairValueExtremity, TickRisk(cfg, m))
  }

  function BookFresh(cfg: Config, b: Option<Book>, now: nat): bool {
    b.Some? && SaturatingSub(now, b.value.timestampMs) <= cfg.risk.staleBookMs
  }

  /** None of the early returns in front of the guard is taken. */
  function TickOpen(cfg: Config, e: EngineState, m: TickInput): bool {
    && m.quoting && !m.draining && !e.paused
    && m.fvWarm && !m.volStale && m.volWarm
    && e.heartbeatHealthy
    && (BookFresh(cfg, e.yesBook, m.now) || BookFresh(cfg, e.noBook, m.now))
    && 1.0 - ZoneMax(cfg, m) <= m.fvYes <= ZoneMax(cfg, m)
  }

  // ── Maker quoting ──

  function Target(m: TickInput, side: Side): real {
    RoundToTick(Max(FairValue(m.fvYes, side) - m.edge, 0.01), m.tick)
  }

  /** The side's target lies in the zone and below any known ask of a fresh book. */
  function Postable(cfg: Config, e: EngineState, m: TickInput, side: Side): bool {
    var target := Target(m, side);
    && BookFresh(cfg, e.BookOf(side), m.now)
    && 1.0 - ZoneMax(cfg, m) <= target <= ZoneMax(cfg, m)
    && (BestAsk(e.BookOf(side)).Some? ==> target < BestAsk(e.BookOf(side)).value)
  }

  function Imbalance(e: EngineState): real {
    e.Shares(Yes) - e.Shares(No)
  }

  function Lagging(e: EngineState, side: Side): bool {
    e.Shares(side) < e.Shares(Other(side))
  }

  function TakerWillHandle(cfg: Config, e: EngineState): bool {
    Abs(Imbalance(e)) >= cfg.risk.rebalanceThreshold
  }

  /** Cancel of a resting order whose side is no longer postable. */
  function ZoneCancel(q: SideQuote, postable: bool): Option<OrderId> {
    if postable then None else q.CancelTarget()
  }

  ghost function MakerDecision(cfg: Config, e: EngineState, m: TickInput, side: Side, postable: bool): Decision {
    if !postable || (Lagging(e, side) && TakerWillHandle(cfg, e)) then Hold
    else Evaluate(e.quoter.At(side), side, Target(m, side), FairValue(m.fvYes, side),
                  BestAskOrOne(e.BookOf(side)), Lagging(e, side), e.position, cfg.quoting, cfg.risk)
  }

  function DecisionCommands(side: Side, d: Decision): seq<Command> {
    match d
    case Hold => []
    case Post(price, size) => [PostOrder(side, price, size)]
    case Cancel(id) => [CancelOrder(side, id)]
  }

  function DecisionMarked(q: SideQuote, d: Decision): SideQuote {
    match d
    case Hold => q
    case Post(_, _) => q.MarkPost()
    case Cancel(_) => q.CancelSent()
  }

  datatype MakerOutcome = MakerOutcome(quoter: QuoterState, commands: seq<Command>, done: bool)

  /** Cancels the resting orders of sides that are not postable. */
  function ZonePhase(q: QuoterState, yes: bool, no: bool): MakerOutcome {
    var zy, zn := ZoneCancel(q.yes, yes), ZoneCancel(q.no, no);
    MakerOutcome(
      QuoterState(MarkCancel(q.yes, zy), MarkCancel(q.no, zn)),
      CancelCommands(Yes, zy) + CancelCommands(No, zn), zy.Some? || zn.Some?)
  }

  /** Carries out one decision a side. */
  function QuotePhase(q: QuoterState, dy: Decision, dn: Decision): MakerOutcome {
    MakerOutcome(
      QuoterState(DecisionMarked(q.yes, dy), DecisionMarked(q.no, dn)),
      DecisionCommands(Yes, dy) + DecisionCommands(No, dn), false)
  }

  /** Maker quoting: zone cancels end the tick; otherwise each side is evaluated on its own. */
  ghost function MakerPhase(cfg: Config, e: EngineState, m: TickInput): MakerOutcome {
    var yes, no := Postable(cfg, e, m, Yes), Postable(cfg, e, m, No);
    var zone := ZonePhase(e.quoter, yes, no);
    if zone.done then zone
    else QuotePhase(e.quoter, MakerDecision(cfg, e, m, Yes, yes), MakerDecision(cfg, e, m, No, no))
  }

  // ── Taker rebalance ──

  const CLOB_MIN := 5.0

  /** The side a rebalance would buy. */
  function RebalanceSide(e: EngineState): Side {
    if Imbalance(e) > 0.0 then No else Yes
  }

  function RebalanceSize(cfg: Config, e: EngineState): real {
    Max(Min(cfg.risk.rebalanceSize, Abs(Imbalance(e))), CLOB_MIN)
  }

  function RebalanceWanted(cfg: Config, e: EngineState): bool {
    var ask := BestAsk(e.BookOf(RebalanceSide(e)));
    && TakerWillHandle(cfg, e) && !e.pendingRebalance
    && ask.Some?
    && Avg(e.position.At(Other(RebalanceSide(e)))) + ask.value <= cfg.risk.rebalanceMaxPairCost
    && Notional(ask.value, RebalanceSize(cfg, e)) >= 1.0
  }

  function TakerPhase(cfg: Config, e: EngineState): (EngineState, seq<Command>) {
    if !RebalanceWanted(cfg, e) then (e, [])
    else
      var side := RebalanceSide(e);
      var target := e.quoter.At(side).CancelTarget();
      (e.(quoter := e.quoter.With(side, MarkCancel(e.quoter.At(side), target)), pendingRebalance := true),
       CancelCommands(side, target)
       + [RebalanceTaker(side, BestAsk(e.BookOf(side)).value, RebalanceSize(cfg, e))])
  }

  // ── The quote tick ──

  ghost function Guarded(cfg: Config, e: EngineState, m: TickInput): EngineState {
    var active := GuardNext(e.guardActive, Score(m.signals), cfg.risk.goDark, cfg.risk.goLive);
    var e1 := e.(guardActive := active);
    if active then StageCancels(e1) else e1
  }

  /** What a tick does once the guard has decided whether it is dark. */
  ghost function GuardedTick(cfg: Config, e: EngineState, m: TickInput): (EngineState, seq<Command>) {
    if !m.tokensKnown then (e, [])
    else
      var maker := if e.guardActive then MakerOutcome(e.quoter, [], false) else MakerPhase(cfg, e, m);
      var e1 := e.(quoter := maker.quoter);
      if maker.done then (e1, maker.commands)
      else
        var (e2, taker) := TakerPhase(cfg, e1);
        (e2, maker.commands + taker)
  }

  ghost function QuoteTick(cfg: Config, e: EngineState, m: TickInput): (EngineState, seq<Command>) {
    if !TickOpen(cfg, e, m) then (e, []) else GuardedTick(cfg, Guarded(cfg, e, m), m)
  }

  /** No maker order rests and no post or cancel is pending: the program's test for being done with a market. It
      does not look at the pending rebalance. */
  predicate NoOpenPosition(e: EngineState) {
    !e.quoter.HasResting() && !e.quoter.yes.Pending() && !e.quoter.no.Pending()
  }

  // ── The mutable engine of the program ──

  class StrategyEngine {
    const cfg: Config
    const position: BilateralPosition
    const quoter: Quoter
    var pendingRebalance: bool
    var pendingCommands: seq<Command>
    var guardActive: bool
    var paused: bool
    var heartbeatHealthy: bool
    var heartbeatFailures: nat
    var yesBook: Option<Book>
    var noBook: Option<Book>

    ghost const repr: set<object>

    ghost predicate Valid() {
      position.Valid() && repr == {this, quoter} + position.repr
    }

    function View(): EngineState
      reads this, quoter, position.yes, position.no
    {
      EngineState(position.View(), quoter.View(), pendingRebalance, pendingCommands, guardActive, paused,
                  heartbeatHealthy, heartbeatFailures, yesBook, noBook)
    }

    constructor (cfg: Config)
      ensures Valid() && fresh(repr) && this.cfg == cfg
      ensures View() == EngineState(EMPTY, QuoterState(IDLE, IDLE), false, [], false, false, true, 0, None, None)
    {
      var p := new BilateralPosition();
      var q := new Quoter();
      this.cfg, position, quoter := cfg, p, q;
      pendingRebalance, pendingCommands := false, [];
      guardActive, paused := false, false;
      heartbeatHealthy, heartbeatFailures := true, 0;
      yesBook, noBook := None, None;
      repr := {this, q} + p.repr;
    }

    function BookOf(side: Side): Option<Book>
      reads this
    {
      if side == Yes then yesBook else noBook
    }

    method OnTradeStatusUpdate(id: OrderId, matched: bool, size: Option<real>)
      requires Valid()
      modifies repr
      ensures View() == OnTradeStatus(old(View()), id, matched, size)
    {
      if !matched || size.None? || size.value <= 0.0 {
        return;
      }
      var side := MatchedSide(quoter.View(), id);
      if side.None? {
        return;
      }
      var delta := quoter.RecordWsFill(side.value, size.value);
      if delta <= 0.0 {
        return;
      }
      var o := quoter.Order(side.value).value;
      var wasFull := size.value >= o.size;
      position.RecordFill(side.value, o.price, delta, false, 0.0);
      quoter.OnFill(side.value, wasFull);
    }

    /** One method a kind of feedback. */
    method HandlePosted(side: Side, id: OrderId, price: real, size: real, alreadyFilled: bool, fvYes: real)
      requires Valid()
      modifies repr
      ensures View() == OnFeedback(old(View()), OrderPosted(side, id, price, size, alreadyFilled), fvYes)
    {
      if alreadyFilled {
        position.RecordFill(side, price, size, false, 0.0);
        quoter.OnOrderFailed(side);
      } else {
        var o := ManagedOrder(id, price, size, FairValue(fvYes, side), BestAskOrOne(BookOf(side)), 0.0);
        quoter.OnOrderPosted(side, o);
      }
    }

    method HandleFailed(side: Side, fvYes: real)
      requires Valid()
      modifies repr
      ensures View() == OnFeedback(old(View()), OrderFailed(side), fvYes)
    {
      quoter.OnOrderFailed(side);
      match side {
        case Yes => yesBook := Expired(yesBook);
        case No => noBook := Expired(noBook);
      }
    }

    method HandleCancelled(side: Side, id: OrderId, sizeMatched: Option<real>, fvYes: real)
      requires Valid()
      modifies repr
      ensures View() == OnFeedback(old(View()), CancelResult(side, id, sizeMatched), fvYes)
    {
      var known := quoter.LookupOrderForCancel(side, id);
      if sizeMatched.Some? && sizeMatched.value > 0.0 && known.Some? {
        var delta := sizeMatched.value - known.value.1;
        if delta > 0.0 {
          position.RecordFill(side, known.value.0, delta, false, 0.0);
        }
      }
      quoter.OnCancelResult(side);
    }

    method HandleRebalanced(side: Side, filled: bool, taken: real, price: real, fvYes: real)
      requires Valid()
      modifies repr
      ensures View() == OnFeedback(old(View()), RebalanceResult(side, filled, taken, price), fvYes)
    {
      if filled && taken > 0.0 {
        position.RecordFill(side, price, taken, true, TakerFee(price, taken));
      }
      pendingRebalance := false;
    }

    method HandleFeedback(fb: Feedback, fvYes: real)
      requires Valid()
      modifies repr
      ensures View() == OnFeedback(old(View()), fb, fvYes)
    {
      match fb
      case OrderPosted(side, id, price, size, alreadyFilled) =>
        HandlePosted(side, id, price, size, alreadyFilled, fvYes);
      case OrderFailed(side) =>
        HandleFailed(side, fvYes);
      case CancelResult(side, id, sizeMatched) =>
        HandleCancelled(side, id, sizeMatched, fvYes);
      case RebalanceResult(side, filled, taken, price) =>
        HandleRebalanced(side, filled, taken, price, fvYes);
    }

    /** Marks and returns a cancel for `side`, if it has an order to cancel. */
    method CancelSide(side: Side) returns (commands: seq<Command>)
      requires Valid()
      modifies quoter
      ensures var q := old(quoter.View()).At(side);
              && commands == CancelCommands(side, q.CancelTarget())
              && quoter.View() == old(quoter.View()).With(side, MarkCancel(q, q.CancelTarget()))
    {
      commands := CancelCommands(side, quoter.CancelSideAction(side));
      if commands != [] {
        quoter.OnCancelSent(side);
      }
    }

    method CancelAll() returns (commands: seq<Command>)
      requires Valid()
      modifies quoter
      ensures commands == CancelAllCommands(old(quoter.View()))
      ensures quoter.View() == CancelAllMarked(old(quoter.View()))
    {
      var yes := CancelSide(Yes);
      var no := CancelSide(No);
      commands := yes + no;
    }

    method HeartbeatStatus(success: bool)
      requires Valid()
      modifies repr
      ensures View() == OnHeartbeat(cfg, old(View()), success)
    {
      if success {
        heartbeatFailures, heartbeatHealthy := 0, true;
      } else {
        heartbeatFailures := heartbeatFailures + 1;
        if heartbeatFailures >= cfg.risk.heartbeatDeadThreshold && heartbeatHealthy {
          heartbeatHealthy := false;
          var cancels := CancelAll();
          pendingCommands := pendingCommands + cancels;
        }
      }
    }

    method Pause(p: bool) returns (commands: seq<Command>)
      requires Valid()
      modifies repr
      ensures (View(), commands) == SetPaused(old(View()), p)
    {
      paused := p;
      commands := [];
      if p {
        commands := CancelAll();
      }
    }

    method TakePendingCommands() returns (commands: seq<Command>)
      requires Valid()
      modifies repr
      ensures commands == old(pendingCommands)
      ensures View() == old(View()).(pending := [])
    {
      commands := pendingCommands;
      pendingCommands := [];
    }

    method CheckBuildupGuard(signals: Signals) returns (active: bool)
      requires Valid()
      modifies this`guardActive
      ensures active == guardActive == GuardNext(old(guardActive), Score(signals), cfg.risk.goDark, cfg.risk.goLive)
    {
      var score := BuildupScore(signals);
      var threshold := if guardActive then cfg.risk.goLive else cfg.risk.goDark;
      if !guardActive && score >= threshold {
        guardActive := true;
      } else if guardActive && score < threshold {
        guardActive := false;
      }
      active := guardActive;
    }

    method Decide(m: TickInput, side: Side, postable: bool) returns (d: Decision)
      requires Valid()
      ensures d == MakerDecision(cfg, View(), m, side, postable)
    {
      d := Hold;
      if postable && !(Lagging(View(), side) && TakerWillHandle(cfg, View())) {
        d := quoter.EvaluateSide(side, Target(m, side), FairValue(m.fvYes, side), BestAskOrOne(BookOf(side)),
                                 Lagging(View(), side), position, cfg.quoting, cfg.risk);
      }
    }

    method Carry(side: Side, d: Decision) returns (commands: seq<Command>)
      requires Valid()
      modifies quoter
      ensures commands == DecisionCommands(side, d)
      ensures quoter.View() == old(quoter.View()).With(side, DecisionMarked(old(quoter.View()).At(side), d))
    {
      match d
      case Hold =>
        commands := [];
      case Post(price, size) =>
        quoter.MarkPostPending(side);
        commands := [PostOrder(side, price, size)];
      case Cancel(id) =>
        quoter.OnCancelSent(side);
        commands := [CancelOrder(side, id)];
    }

    /** Cancels the resting orders of sides that are no longer postable. */
    method CancelOutsideZone(yes: bool, no: bool) returns (commands: seq<Command>, done: bool)
      requires Valid()
      modifies quoter
      ensures MakerOutcome(quoter.View(), commands, done) == ZonePhase(old(quoter.View()), yes, no)
    {
      var y, n := [], [];
      if !yes {
        y := CancelSide(Yes);
      }
      if !no {
        n := CancelSide(No);
      }
      commands := y + n;
      done := commands != [];
    }

    /** Marks and emits what both sides asked for. */
    method CarryBoth(dy: Decision, dn: Decision) returns (commands: seq<Command>)
      requires Valid()
      modifies quoter
      ensures MakerOutcome(quoter.View(), commands, false) == QuotePhase(old(quoter.View()), dy, dn)
    {
      var y := Carry(Yes, dy);
      var n := Carry(No, dn);
      commands := y + n;
    }

    /** Evaluating changes nothing, so both sides may be evaluated before the zone is enforced. */
    method QuoteMakers(m: TickInput) returns (commands: seq<Command>, done: bool)
      requires Valid()
      modifies quoter
      ensures MakerOutcome(quoter.View(), commands, done) == MakerPhase(cfg, old(View()), m)
    {
      var e := View();
      var yes, no := Postable(cfg, e, m, Yes), Postable(cfg, e, m, No);
      var dy := Decide(m, Yes, yes);
      var dn := Decide(m, No, no);
      commands, done := CancelOutsideZone(yes, no);
      if !done {
        commands := CarryBoth(dy, dn);
      }
    }

    method Rebalance() returns (commands: seq<Command>)
      requires Valid()
      modifies repr
      ensures (View(), commands) == TakerPhase(cfg, old(View()))
    {
      commands := [];
      var e := View();
      if TakerWillHandle(cfg, e) && !pendingRebalance {
        var side := RebalanceSide(e);
        var ask := BestAsk(BookOf(side));
        if ask.Some? {
          var pairCost := Avg(e.position.At(Other(side))) + ask.value;
          if pairCost <= cfg.risk.rebalanceMaxPairCost {
            var size := RebalanceSize(cfg, e);
            if Notional(ask.value, size) >= 1.0 {
              commands := CancelSide(side);
              pendingRebalance := true;
              commands := commands + [RebalanceTaker(side, ask.value, size)];
            }
          }
        }
      }
    }

    method Tick(m: TickInput) returns (commands: seq<Command>)
      requires Valid()
      modifies repr
      ensures (View(), commands) == QuoteTick(cfg, old(View()), m)
    {
      if !TickOpen(cfg, View(), m) {
        return [];
      }
      var dark := CheckBuildupGuard(m.signals);
      if dark {
        var cancels := CancelAll();
        pendingCommands := pendingCommands + cancels;
      }
      if !m.tokensKnown {
        return [];
      }
      commands := [];
      if !dark {
        var done;
        commands, done := QuoteMakers(m);
        if done {
          return;
        }
      }
      var taker := Rebalance();
      commands := commands + taker;
    }

    predicate HasNoOpenPosition()
      reads this, quoter, position.yes, position.no
      ensures HasNoOpenPosition() == NoOpenPosition(View())
    {
      !quoter.HasRestingOrders() && !quoter.IsPending(Yes) && !quoter.IsPending(No)
    }
  }
}
