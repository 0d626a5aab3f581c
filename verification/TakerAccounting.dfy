/** Exactly-once rebalances: what the exchange has sold to rebalances is what the engine has booked for them plus the
    filled answer still under way, in every run. */
module TakerAccounting {
  import opened Common
  import opened Orders
  import opened Executor
  import opened Lifecycle
  import opened Protocol
  import opened ProtocolRuns

  // ── The exchange's side ──

  /** Shares the exchange sells to a rebalance: none unless the order goes out and is filled, and never more than
      were ordered. */
  function SoldTo(u: Setup, warm: bool, c: Command, r: TakerResponse): real
    requires c.RebalanceTaker? && u.scale > 0
  {
    if warm && r.TakerDone? && r.filled then Min(r.matched, SafeShares(c.price, c.size, u.scale)) else 0.0
  }

  /** Shares of side `x` the exchange sells in one step. */
  ghost function SoldIn(u: Setup, s: System, a: Action, x: Side): real
    requires Enabled(u, s, a)
  {
    match a
    case ExecRebalance(r) => if s.commands[0].side == x then SoldTo(u, s.cachesWarm, s.commands[0], r) else 0.0
    case _ => 0.0
  }

  /** Shares of side `x` the exchange sells to rebalances in a run. */
  ghost function Sold(u: Setup, s: System, run: seq<Action>, x: Side): real
    requires RunFrom(u, s, run)
    decreases |run|
  {
    if run == [] then 0.0 else SoldIn(u, s, run[0], x) + Sold(u, Next(u, s, run[0]), run[1..], x)
  }

  // ── The engine's side ──

  predicate FilledAnswer(f: Feedback, x: Side) {
    f.RebalanceResult? && f.side == x && f.filled && f.taken > 0.0
  }

  /** Shares of `x` in a rebalance answer under way. */
  ghost function Unheard(s: System, x: Side): real {
    var flight := Flight(s, Taker);
    if |flight| == 1 && flight[0].Answered? && FilledAnswer(flight[0].reply, x) then flight[0].reply.taken else 0.0
  }

  ghost function Accounted(s: System, x: Side): real {
    s.TakerShares(x) + Unheard(s, x)
  }

  // ── Step by step ──

  lemma TakerUntouched(s: System, t: System, x: Side)
    requires Flight(t, Taker) == Flight(s, Taker) && t.takerYes == s.takerYes && t.takerNo == s.takerNo
    ensures Accounted(t, x) == Accounted(s, x)
  {
  }

  lemma EngineStepSellsNothing(u: Setup, s: System, t: System, now: seq<Command>, later: seq<Command>, x: Side)
    requires Inv(s) && EngineSends(u, s, t, now, later)
    ensures Accounted(t, x) == Accounted(s, x)
  {
    var sent := CommandsOf(now, Taker) + CommandsOf(later, Taker);
    EngineSendsForTaker(u, s, t, now, later);
    if sent == [] {
      assert Flight(t, Taker) == Flight(s, Taker);
    } else {
      assert Flight(s, Taker) == [];
      assert Flight(t, Taker) == sent;
    }
  }

  lemma DeliverySellsNothing(s: System, fvYes: real, x: Side)
    requires Inv(s) && s.feedback != []
    ensures Accounted(DeliverStep(s, fvYes), x) == Accounted(s, x)
  {
    var t, fb := DeliverStep(s, fvYes), s.feedback[0];
    if fb.RebalanceResult? {
      DeliverConsumesTaken(s, fvYes);
      FlightDelivered(s, t);
      assert Flight(s, Taker) == [Answered(fb)] && Flight(t, Taker) == [];
      assert x == fb.side || x == Other(fb.side);
    } else {
      DeliverConsumes(s, fvYes);
      FlightDelivered(s, t);
      TakerUntouched(s, t, x);
    }
  }

  lemma UpdateSellsNothing(s: System, id: OrderId, isMatch: bool, size: Option<real>, x: Side)
    ensures Accounted(UpdateStep(s, id, isMatch, size), x) == Accounted(s, x)
  {
    var t := UpdateStep(s, id, isMatch, size);
    UpdateOutcome(s, id, isMatch, size);
    if t != s {
      FlightSame(s, t);
    }
  }

  lemma MakerAnswerSellsNothing(s: System, t: System, f: Feedback, x: Side)
    requires Inv(s) && Answers(s, t, f) && ReplySlot(f).Maker?
    ensures Accounted(t, x) == Accounted(s, x)
  {
    var z := ReplySlot(f).side;
    assert SideInv(z, s.engine.quoter.At(z), Flight(s, Maker(z)), s.accounts);
    FlightAnswered(s, t, f);
    TakerUntouched(s, t, x);
  }

  lemma SafeSharesNonNegative(price: real, size: real, scale: nat)
    requires scale > 0
    ensures SafeShares(price, size, scale) >= 0.0
  {
  }

  /** The executor's answer carries exactly what was sold. */
  lemma AnswerCarriesWhatWasSold(u: Setup, s: System, r: TakerResponse, x: Side)
    requires Inv(s) && Enabled(u, s, ExecRebalance(r))
    ensures Accounted(RebalanceStep(u, s, r), x) == Accounted(s, x) + SoldIn(u, s, ExecRebalance(r), x)
  {
    var t, c := RebalanceStep(u, s, r), s.commands[0];
    var f := ReplyToRebalance(s.cachesWarm, c.side, c.price, c.size, u.scale, r);
    SafeSharesNonNegative(c.price, c.size, u.scale);
    FlightAnswered(s, t, f);
    assert Flight(s, Taker) == [Sent(c)] && Flight(t, Taker) == [Answered(f)];
  }

  lemma StepAccounts(u: Setup, s: System, a: Action, x: Side)
    requires Inv(s) && Enabled(u, s, a)
    ensures Accounted(Next(u, s, a), x) == Accounted(s, x) + SoldIn(u, s, a, x)
  {
    if IsEngineStep(a) {
      var now, later := EngineStepSends(u, s, a);
      EngineStepSellsNothing(u, s, Next(u, s, a), now, later, x);
    } else {
      match a
      case UserUpdate(id, isMatch, size) => UpdateSellsNothing(s, id, isMatch, size, x);
      case Deliver(fvYes) => DeliverySellsNothing(s, fvYes, x);
      case Flush =>
        FlushMovesAlong(s);
        TakerUntouched(s, FlushStep(s), x);
      case Match(id, amount) =>
        FlightSame(s, MatchStep(s, id, amount));
        TakerUntouched(s, MatchStep(s, id, amount), x);
      case ExecRotation(warmed) =>
        RotationMovesAlong(u, s, warmed);
        TakerUntouched(s, Next(u, s, a), x);
      case ExecPost(r) =>
        var c := s.commands[0];
        PostAnswerFits(u, s, r);
        MakerAnswerSellsNothing(s, PostStep(s, r), ReplyToPost(s.cachesWarm, c.side, c.price, c.size, r), x);
      case ExecCancel(stillLive, reported) =>
        var c := s.commands[0];
        MakerAnswerSellsNothing(s, CancelStep(s, stillLive, reported), ReplyToCancel(c.side, c.id, reported), x);
      case ExecRebalance(r) => AnswerCarriesWhatWasSold(u, s, r, x);
    }
  }

  lemma {:induction false} RunAccounts(u: Setup, s: System, run: seq<Action>, x: Side)
    requires Inv(s) && RunFrom(u, s, run)
    ensures Accounted(After(u, s, run), x) == Accounted(s, x) + Sold(u, s, run, x)
    decreases |run|
  {
    if run != [] {
      StepAccounts(u, s, run[0], x);
      StepKeepsInv(u, s, run[0]);
      RunAccounts(u, Next(u, s, run[0]), run[1..], x);
    }
  }

  lemma NothingSoldAtStart(x: Side)
    ensures Accounted(START, x) == 0.0
  {
    assert [MarketRotation][1..] == [];
    assert Flight(START, Taker) == [];
  }

  lemma SoldIsAccounted(u: Setup, s: System, run: seq<Action>, x: Side)
    requires Inv(s) && RunFrom(u, s, run) && Accounted(s, x) == 0.0
    ensures After(u, s, run).TakerShares(x) + Unheard(After(u, s, run), x) == Sold(u, s, run, x)
  {
    RunAccounts(u, s, run, x);
  }

  /** In every run the rebalances booked and the filled answer under way are exactly what the exchange has sold: no
      fill is lost, none is booked twice. */
  lemma RebalancesAreBookedExactlyOnce(u: Setup, run: seq<Action>, x: Side)
    requires RunFrom(u, START, run)
    ensures var s := After(u, START, run);
            s.TakerShares(x) + Unheard(s, x) == Sold(u, START, run, x)
  {
    StartInv();
    NothingSoldAtStart(x);
    SoldIsAccounted(u, START, run, x);
  }

  // ── What waits in the channel ──

  lemma {:induction false} FilledAnswerWaits(q: seq<Feedback>, f: Feedback)
    requires f in q && f.RebalanceResult?
    ensures Answered(f) in RepliesOf(q, Taker)
  {
    if q[0] != f {
      assert f in q[1..];
      FilledAnswerWaits(q[1..], f);
    }
  }

  lemma {:induction false} WaitingIsInTheChannel(q: seq<Feedback>, op: Op)
    requires op in RepliesOf(q, Taker)
    ensures op.Answered? && op.reply in q
  {
    if !(ReplySlot(q[0]) == Taker && op == Answered(q[0])) {
      assert op in RepliesOf(q[1..], Taker);
      WaitingIsInTheChannel(q[1..], op);
    }
  }

  /** Shares are unheard of exactly while a filled answer waits in the feedback channel. */
  lemma UnheardIsInTheChannel(s: System, x: Side)
    requires Inv(s)
    ensures Unheard(s, x) >= 0.0
    ensures Unheard(s, x) > 0.0 <==> exists f :: f in s.feedback && FilledAnswer(f, x)
    ensures Unheard(s, x) > 0.0 ==> s.engine.pendingRebalance
  {
    var flight, replies := Flight(s, Taker), RepliesOf(s.feedback, Taker);
    if f :| f in s.feedback && FilledAnswer(f, x) {
      FilledAnswerWaits(s.feedback, f);
      assert Answered(f) in flight;
      assert flight == [Answered(f)];
    }
    if Unheard(s, x) > 0.0 {
      assert flight[0] in flight;
      OnlyRepliesAreAnswered(s, flight[0]);
      WaitingIsInTheChannel(s.feedback, flight[0]);
    }
  }

  lemma {:induction false} CommandsAreSent(q: seq<Command>, op: Op)
    requires op in CommandsOf(q, Taker)
    ensures op.Sent?
  {
    if !(CommandSlot(q[0]) == Taker && op == Sent(q[0])) {
      assert op in CommandsOf(q[1..], Taker);
      CommandsAreSent(q[1..], op);
    }
  }

  lemma OnlyRepliesAreAnswered(s: System, op: Op)
    requires op in Flight(s, Taker) && op.Answered?
    ensures op in RepliesOf(s.feedback, Taker)
  {
    if op in CommandsOf(s.commands, Taker) {
      CommandsAreSent(s.commands, op);
    } else if op in CommandsOf(s.engine.pending, Taker) {
      CommandsAreSent(s.engine.pending, op);
    }
  }
}
