/** The protocol invariant over whole runs, and what it says about flags, messages and channels. */
module ProtocolRuns {
  import opened Common
  import opened Quoting
  import opened Orders
  import opened Strategy
  import opened Lifecycle
  import opened Protocol
  import opened TickContract

  // ── Steps of the engine that only send ──

  predicate IsEngineStep(a: Action) {
    a.Tick? || a.Heartbeat? || a.SetPause? || a.BookUpdate?
  }

  /** What an engine step sends, now and through the buffer, fits the state of either side and of the taker. */
  ghost predicate EngineSends(u: Setup, s: System, t: System, now: seq<Command>, later: seq<Command>) {
    && Sends(s, t, now, later)
    && (forall x :: SideSends(x, s.engine.quoter.At(x), t.engine.quoter.At(x),
                              CommandsOf(now, Maker(x)) + CommandsOf(later, Maker(x))))
    && (forall x :: PostsGuarded(u.cfg, s.engine, x, CommandsOf(now, Maker(x)) + CommandsOf(later, Maker(x))))
    && TakerSends(s.engine.pendingRebalance, t.engine.pendingRebalance,
                  CommandsOf(now, Taker) + CommandsOf(later, Taker))
    && (CommandsOf(now, Taker) + CommandsOf(later, Taker) == []
        || CommandsOf(now, Taker) + CommandsOf(later, Taker) == RebalanceOp(u.cfg, s.engine))
  }

  /** Every post sent has passed the quoter's guards on the present position. */
  ghost predicate PostsGuarded(cfg: Config, e: EngineState, x: Side, sent: seq<Op>) {
    forall op :: op in sent && op.Sent? && op.command.PostOrder? ==>
      && MayQuote(x, op.command.price, e.position, cfg.quoting, cfg.risk)
      && op.command.size == QuoteSize(cfg.quoting, e.Shares(x))
  }

  lemma TickSendsGuarded(cfg: Config, e: EngineState, m: TickInput, x: Side, f: EngineState,
                         now: seq<Command>, later: seq<Command>)
    requires TickSends(cfg, e, m, x, f, now, later)
    ensures PostsGuarded(cfg, e, x, CommandsOf(now, Maker(x)) + CommandsOf(later, Maker(x)))
  {
  }

  lemma TickAsEngineStep(u: Setup, s: System, t: System, m: TickInput, now: seq<Command>, later: seq<Command>)
    requires Sends(s, t, now, later)
    requires forall x :: TickSends(u.cfg, s.engine, m, x, t.engine, now, later)
    requires TickTaker(u.cfg, s.engine, t.engine, now, later)
    ensures EngineSends(u, s, t, now, later)
  {
    forall x
      ensures SideSends(x, s.engine.quoter.At(x), t.engine.quoter.At(x),
                        CommandsOf(now, Maker(x)) + CommandsOf(later, Maker(x)))
      ensures PostsGuarded(u.cfg, s.engine, x, CommandsOf(now, Maker(x)) + CommandsOf(later, Maker(x)))
    {
      assert TickSends(u.cfg, s.engine, m, x, t.engine, now, later);
      TickSendsGuarded(u.cfg, s.engine, m, x, t.engine, now, later);
    }
    assert CommandsOf(now, Taker) + CommandsOf(later, Taker) == CommandsOf(now, Taker);
  }

  lemma TickEngineSends(u: Setup, s: System, m: TickInput) returns (now: seq<Command>, later: seq<Command>)
    ensures EngineSends(u, s, TickStep(u, s, m), now, later)
    ensures forall x :: TickSends(u.cfg, s.engine, m, x, TickStep(u, s, m).engine, now, later)
  {
    TickSendsOnSide(u.cfg, s.engine, m, Yes);
    TickSendsOnSide(u.cfg, s.engine, m, No);
    var (f, sent) := QuoteTick(u.cfg, s.engine, m);
    now, later := sent, Staged(s.engine, f);
    TickAsEngineStep(u, s, TickStep(u, s, m), m, now, later);
  }

  /** Cancelling everything, through either channel. */
  lemma CancelAllEngineSends(u: Setup, s: System, t: System, now: seq<Command>, later: seq<Command>)
    requires Sends(s, t, now, later)
    requires t.engine.pendingRebalance == s.engine.pendingRebalance
    requires t.engine.quoter == CancelAllMarked(s.engine.quoter)
    requires (now, later) == (CancelAllCommands(s.engine.quoter), [])
          || (now, later) == ([], CancelAllCommands(s.engine.quoter))
    ensures OnlyCancels(u, s, t, now, later)
  {
    var all := CancelAllCommands(s.engine.quoter);
    forall x
      ensures SideSends(x, s.engine.quoter.At(x), t.engine.quoter.At(x),
                        CommandsOf(now, Maker(x)) + CommandsOf(later, Maker(x)))
      ensures PostsGuarded(u.cfg, s.engine, x, CommandsOf(now, Maker(x)) + CommandsOf(later, Maker(x)))
      ensures NoPosts(CommandsOf(now, Maker(x)) + CommandsOf(later, Maker(x)))
    {
      CancelAllSends(s.engine.quoter, x);
      assert CommandsOf(now, Maker(x)) + CommandsOf(later, Maker(x)) == CommandsOf(all, Maker(x));
    }
    CancelAllSends(s.engine.quoter, Yes);
    CancelAllOnlyCancels(s.engine.quoter);
  }

  lemma CancelAllOnlyCancels(q: QuoterState)
    ensures forall c :: c in CancelAllCommands(q) ==> c.CancelOrder?
  {
  }

  lemma IdleEngineSends(u: Setup, s: System, t: System)
    requires Sends(s, t, [], [])
    requires t.engine.quoter == s.engine.quoter && t.engine.pendingRebalance == s.engine.pendingRebalance
    ensures OnlyCancels(u, s, t, [], [])
  {
    assert forall slot :: CommandsOf([], slot) + CommandsOf([], slot) == [];
  }

  ghost predicate NoPosts(sent: seq<Op>) {
    forall op :: op in sent && op.Sent? ==> !op.command.PostOrder?
  }

  /** What an engine step other than a tick sends: cancels, or nothing. */
  ghost predicate OnlyCancels(u: Setup, s: System, t: System, now: seq<Command>, later: seq<Command>) {
    && EngineSends(u, s, t, now, later)
    && (forall x :: NoPosts(CommandsOf(now, Maker(x)) + CommandsOf(later, Maker(x))))
    && CommandsOf(now, Taker) + CommandsOf(later, Taker) == []
    && (forall c :: c in now || c in later ==> c.CancelOrder?)
  }

  lemma HeartbeatSends(u: Setup, s: System, success: bool) returns (later: seq<Command>)
    ensures OnlyCancels(u, s, HeartbeatStep(u, s, success), [], later)
  {
    var t, all := HeartbeatStep(u, s, success), CancelAllCommands(s.engine.quoter);
    assert s.commands + [] == s.commands && s.engine.pending + [] == s.engine.pending;
    if t.engine == s.engine.(heartbeatFailures := t.engine.heartbeatFailures,
                             heartbeatHealthy := t.engine.heartbeatHealthy) {
      later := [];
      IdleEngineSends(u, s, t);
    } else {
      later := all;
      CancelAllEngineSends(u, s, t, [], later);
    }
  }

  lemma PauseSends(u: Setup, s: System, paused: bool) returns (now: seq<Command>)
    ensures OnlyCancels(u, s, PauseStep(s, paused), now, [])
  {
    assert s.commands + [] == s.commands && s.engine.pending + [] == s.engine.pending;
    if paused {
      now := CancelAllCommands(s.engine.quoter);
      CancelAllEngineSends(u, s, PauseStep(s, paused), now, []);
    } else {
      now := [];
      IdleEngineSends(u, s, PauseStep(s, paused));
    }
  }

  lemma BookSends(u: Setup, s: System, side: Side, book: Book)
    ensures OnlyCancels(u, s, BookStep(s, side, book), [], [])
  {
    assert s.commands + [] == s.commands && s.engine.pending + [] == s.engine.pending;
    IdleEngineSends(u, s, BookStep(s, side, book));
  }

  /** Every engine step is such a step; only a tick posts or rebalances. */
  lemma EngineStepSends(u: Setup, s: System, a: Action) returns (now: seq<Command>, later: seq<Command>)
    requires IsEngineStep(a)
    ensures EngineSends(u, s, Next(u, s, a), now, later)
    ensures a.Tick? ==> forall x :: TickSends(u.cfg, s.engine, a.input, x, Next(u, s, a).engine, now, later)
    ensures !a.Tick? ==> OnlyCancels(u, s, Next(u, s, a), now, later)
  {
    now, later := [], [];
    match a
    case Tick(m) =>
      now, later := TickEngineSends(u, s, m);
    case Heartbeat(success) =>
      later := HeartbeatSends(u, s, success);
    case SetPause(paused) =>
      now := PauseSends(u, s, paused);
    case BookUpdate(side, book) =>
      BookSends(u, s, side, book);
    case _ =>
  }

  /** One side's view of an engine step. */
  lemma EngineSendsOnSide(u: Setup, s: System, t: System, now: seq<Command>, later: seq<Command>, x: Side)
    requires Inv(s) && EngineSends(u, s, t, now, later)
    ensures var sent := CommandsOf(now, Maker(x)) + CommandsOf(later, Maker(x));
            && SideSends(x, s.engine.quoter.At(x), t.engine.quoter.At(x), sent)
            && PostsGuarded(u.cfg, s.engine, x, sent)
            && (sent == [] || Flight(s, Maker(x)) == [])
            && Flight(t, Maker(x)) == Flight(s, Maker(x)) + sent
  {
    SideFlightSent(s, t, now, later, x);
  }

  /** The taker's view of an engine step. */
  lemma EngineSendsForTaker(u: Setup, s: System, t: System, now: seq<Command>, later: seq<Command>)
    requires Inv(s) && EngineSends(u, s, t, now, later)
    ensures var sent := CommandsOf(now, Taker) + CommandsOf(later, Taker);
            && TakerSends(s.engine.pendingRebalance, t.engine.pendingRebalance, sent)
            && (sent == [] || sent == RebalanceOp(u.cfg, s.engine))
            && Flight(t, Taker) == Flight(s, Taker) + sent
  {
    FlightSent(s, t, now, later, Taker);
  }

  // ── Steps that only move messages along ──

  /** Flushing the buffer, or executing a rotation, changes no slot that anyone waits for. */
  ghost predicate MovesAlong(s: System, t: System) {
    && (forall slot :: slot != Control ==> Flight(t, slot) == Flight(s, slot))
    && t.accounts == s.accounts && t.takerYes == s.takerYes && t.takerNo == s.takerNo
    && t.engine.position == s.engine.position && t.engine.quoter == s.engine.quoter
    && t.engine.pendingRebalance == s.engine.pendingRebalance
  }

  lemma FlushMovesAlong(s: System)
    ensures MovesAlong(s, FlushStep(s))
  {
    forall slot ensures Flight(FlushStep(s), slot) == Flight(s, slot) {
      CommandsOfConcat(s.commands, s.engine.pending, slot);
    }
  }

  lemma RotationMovesAlong(u: Setup, s: System, warmed: bool)
    requires Enabled(u, s, ExecRotation(warmed))
    ensures MovesAlong(s, Next(u, s, ExecRotation(warmed)))
  {
    var t := Next(u, s, ExecRotation(warmed));
    forall slot: Slot | slot != Control ensures Flight(t, slot) == Flight(s, slot) {
      assert CommandsOf(s.commands, slot) == CommandsOf(t.commands, slot);
    }
  }

  lemma MovingAlongKeepsInv(s: System, t: System)
    requires Inv(s) && MovesAlong(s, t)
    ensures Inv(t)
  {
    assert SideInv(Yes, s.engine.quoter.At(Yes), Flight(s, Maker(Yes)), s.accounts) && Conserved(s, Yes);
    assert SideInv(No, s.engine.quoter.At(No), Flight(s, Maker(No)), s.accounts) && Conserved(s, No);
    BothSides(t, Yes);
  }

  lemma StepKeepsInv(u: Setup, s: System, a: Action)
    requires Inv(s) && Enabled(u, s, a)
    ensures Inv(Next(u, s, a))
  {
    if IsEngineStep(a) {
      var now, later := EngineStepSends(u, s, a);
      SendingKeepsInv(s, Next(u, s, a), now, later);
    } else {
      match a
      case UserUpdate(id, isMatch, size) => UpdateKeepsInv(s, id, isMatch, size);
      case Deliver(fvYes) => DeliverKeepsInv(s, fvYes);
      case Flush =>
        FlushMovesAlong(s);
        MovingAlongKeepsInv(s, Next(u, s, a));
      case Match(id, amount) => MatchKeepsInv(s, id, amount);
      case ExecRotation(warmed) =>
        RotationMovesAlong(u, s, warmed);
        MovingAlongKeepsInv(s, Next(u, s, a));
      case ExecPost(r) => PostKeepsInv(u, s, r);
      case ExecCancel(stillLive, reported) => CancelKeepsInv(u, s, stillLive, reported);
      case ExecRebalance(r) => RebalanceKeepsInv(u, s, r);
    }
  }

  lemma StartInv()
    ensures Inv(START)
  {
    assert [MarketRotation][1..] == [];
  }

  /** In every reachable state, whatever the interleaving, the protocol invariant holds. */
  lemma {:induction false} RunKeepsInv(u: Setup, s: System, run: seq<Action>)
    requires Inv(s) && RunFrom(u, s, run)
    ensures Inv(After(u, s, run))
    decreases |run|
  {
    if run != [] {
      StepKeepsInv(u, s, run[0]);
      RunKeepsInv(u, Next(u, s, run[0]), run[1..]);
    }
  }

  // ── What it means for one side ──

  ghost predicate IsPost(op: Op) {
    match op
    case Sent(c) => c.PostOrder?
    case Answered(f) => f.OrderPosted? || f.OrderFailed?
  }

  ghost predicate IsCancelOf(op: Op, id: OrderId) {
    match op
    case Sent(c) => c.CancelOrder? && c.id == id
    case Answered(f) => f.CancelResult? && f.id == id
  }

  /** The order a pending cancel must be about. */
  ghost function CancelSubject(q: SideQuote): Option<OrderId> {
    if q.order.Some? then Some(q.order.value.id)
    else if q.lastCleared.Some? then Some(q.lastCleared.value.id)
    else None
  }

  /** Flags and messages of one side, in every reachable state. */
  lemma SideProtocol(u: Setup, run: seq<Action>, x: Side)
    requires RunFrom(u, START, run)
    ensures var s := After(u, START, run);
            var q, flight := s.engine.quoter.At(x), Flight(s, Maker(x));
            // a resting order excludes a pending post, and the two pending flags exclude each other
            && !(q.order.Some? && q.pendingPost) && !(q.pendingPost && q.pendingCancel)
            // each flag stands for exactly one command or answer under way
            && |flight| <= 1
            && (q.pendingPost <==> |flight| == 1 && IsPost(flight[0]))
            && (q.pendingCancel <==> |flight| == 1 && !IsPost(flight[0]))
            // and a cancel is about the resting order or, if that is gone, about the one last cleared
            && (q.pendingCancel ==> CancelSubject(q).Some? && IsCancelOf(flight[0], CancelSubject(q).value))
            && (s.engine.pendingRebalance <==> |Flight(s, Taker)| == 1)
  {
    StartInv();
    RunKeepsInv(u, START, run);
    var s := After(u, START, run);
    assert SideInv(x, s.engine.quoter.At(x), Flight(s, Maker(x)), s.accounts);
  }

  // ── Channel bounds ──

  lemma {:induction false} RepliesFillTheirSlots(q: seq<Feedback>)
    ensures |q| == |RepliesOf(q, Maker(Yes))| + |RepliesOf(q, Maker(No))| + |RepliesOf(q, Taker)|
  {
    if q != [] {
      RepliesFillTheirSlots(q[1..]);
      assert q[0].side == Yes || q[0].side == No;
    }
  }

  const CHANNEL_CAPACITY := 8192

  /** At most three answers ever wait for the engine, so the bounded channel never drops one. */
  lemma FeedbackNeverDropped(u: Setup, run: seq<Action>)
    requires RunFrom(u, START, run)
    ensures |After(u, START, run).feedback| <= 3 < CHANNEL_CAPACITY
  {
    StartInv();
    RunKeepsInv(u, START, run);
    var s := After(u, START, run);
    RepliesFillTheirSlots(s.feedback);
    assert SideInv(Yes, s.engine.quoter.At(Yes), Flight(s, Maker(Yes)), s.accounts);
    assert SideInv(No, s.engine.quoter.At(No), Flight(s, Maker(No)), s.accounts);
  }

  // ── Why an epoch has to start quiescent ──

  /** Pending flags of a side and of the taker agree with what is in flight. */
  ghost predicate FlagsFit(s: System) {
    && (forall x :: s.engine.quoter.At(x).Pending() <==> |Flight(s, Maker(x))| == 1)
    && (s.engine.pendingRebalance <==> |Flight(s, Taker)| == 1)
  }

  /** The engine's reset at a market rotation, with whatever is still in the channels. */
  function Rotated(s: System): System {
    s.(engine := s.engine.(quoter := QuoterState(IDLE, IDLE), pendingRebalance := false,
                           pending := s.engine.pending + [MarketRotation]))
  }

  lemma RotationWaitsForNobody(s: System)
    ensures forall slot: Slot :: slot != Control ==> Flight(Rotated(s), slot) == Flight(s, slot)
  {
    assert [MarketRotation][1..] == [];
    forall slot: Slot | slot != Control ensures Flight(Rotated(s), slot) == Flight(s, slot) {
      CommandsOfConcat(s.engine.pending, [MarketRotation], slot);
      assert CommandsOf([MarketRotation], slot) == [];
    }
  }

  /** After a rotation the flags still fit exactly when nothing was pending before it. */
  lemma RotationIsSafeExactlyWhenQuiescent(s: System)
    requires Inv(s)
    ensures FlagsFit(Rotated(s))
       <==> !s.engine.quoter.yes.Pending() && !s.engine.quoter.no.Pending() && !s.engine.pendingRebalance
  {
    var t := Rotated(s);
    RotationWaitsForNobody(s);
    forall x ensures s.engine.quoter.At(x).Pending() <==> |Flight(s, Maker(x))| == 1 {
      assert SideInv(x, s.engine.quoter.At(x), Flight(s, Maker(x)), s.accounts);
    }
    assert s.engine.quoter.yes.Pending() <==> |Flight(s, Maker(Yes))| == 1;
    assert s.engine.quoter.no.Pending() <==> |Flight(s, Maker(No))| == 1;
  }
}
