/** Every order gets at most one cancel result. The fill accounting relies on it: a second result for the same
    order would book its missing shares again. */
module CancelOnce {
  import opened Common
  import opened Quoting
  import opened Orders
  import opened Strategy
  import opened Executor
  import opened Lifecycle
  import opened Protocol
  import opened ProtocolRuns

  // ── What one cancel result does when it is repeated ──

  /** Delivering the same cancel result twice books nothing the second time exactly when it booked nothing the
      first time: what it books is not remembered for the cleared order. */
  lemma CancelResultIsIdempotentExactly(e: EngineState, x: Side, id: OrderId, matched: real, fvYes: real)
    requires e.quoter.At(x).order.Some? && e.quoter.At(x).order.value.id == id
    requires e.quoter.At(x).order.value.sizeFilled >= 0.0
    ensures var fb := CancelResult(x, id, Some(matched));
            var once := OnFeedback(e, fb, fvYes);
            OnFeedback(once, fb, fvYes).Shares(x) == once.Shares(x) <==> once.Shares(x) == e.Shares(x)
  {
    var fb, filled := CancelResult(x, id, Some(matched)), e.quoter.At(x).order.value.sizeFilled;
    var once := OnFeedback(e, fb, fvYes);
    assert once.Shares(x) == e.Shares(x) + Max(matched - filled, 0.0);
    assert once.quoter.At(x).Lookup(id) == e.quoter.At(x).Lookup(id);
    assert OnFeedback(once, fb, fvYes).Shares(x) == once.Shares(x) + Max(matched - filled, 0.0);
  }

  // ── An order that is gone stays gone ──

  ghost predicate OpAbout(op: Op, id: OrderId) {
    match op
    case Sent(CancelOrder(_, i)) => i == id
    case Answered(CancelResult(_, i, _)) => i == id
    case Answered(OrderPosted(_, i, _, _, _)) => i == id
    case _ => false
  }

  /** The side neither holds the order nor has an operation about it under way. */
  ghost predicate DoneWith(q: SideQuote, flight: seq<Op>, id: OrderId) {
    && (q.order.Some? ==> q.order.value.id != id)
    && (forall i :: 0 <= i < |flight| ==> !OpAbout(flight[i], id))
  }

  ghost predicate Gone(s: System, id: OrderId) {
    id < |s.accounts| && forall x :: DoneWith(s.engine.quoter.At(x), Flight(s, Maker(x)), id)
  }

  lemma BothDone(t: System, id: OrderId, x: Side)
    requires id < |t.accounts|
    requires DoneWith(t.engine.quoter.At(x), Flight(t, Maker(x)), id)
    requires DoneWith(t.engine.quoter.At(Other(x)), Flight(t, Maker(Other(x))), id)
    ensures Gone(t, id)
  {
    forall z ensures DoneWith(t.engine.quoter.At(z), Flight(t, Maker(z)), id) {
      assert z == x || z == Other(x);
    }
  }

  lemma UpdateLeavesGone(s: System, oid: OrderId, isMatch: bool, size: Option<real>, id: OrderId)
    requires Inv(s) && Gone(s, id)
    ensures Gone(UpdateStep(s, oid, isMatch, size), id)
  {
    UpdateOutcome(s, oid, isMatch, size);
    var t := UpdateStep(s, oid, isMatch, size);
    if t != s {
      var x := MatchedSide(s.engine.quoter, oid).value;
      assert DoneWith(s.engine.quoter.At(x), Flight(s, Maker(x)), id);
      assert DoneWith(s.engine.quoter.At(Other(x)), Flight(s, Maker(Other(x))), id);
      FlightSame(s, t);
      BothDone(t, id, x);
    }
  }

  lemma DeliverLeavesGone(s: System, fvYes: real, id: OrderId)
    requires Inv(s) && Gone(s, id) && s.feedback != []
    ensures Gone(DeliverStep(s, fvYes), id)
  {
    var t, fb := DeliverStep(s, fvYes), s.feedback[0];
    if fb.RebalanceResult? {
      DeliverConsumesTaken(s, fvYes);
      FlightDelivered(s, t);
      forall z ensures DoneWith(t.engine.quoter.At(z), Flight(t, Maker(z)), id) {
        assert DoneWith(s.engine.quoter.At(z), Flight(s, Maker(z)), id);
      }
    } else {
      DeliverConsumes(s, fvYes);
      var fv, ask := DeliverQuote(s, fvYes);
      ConsumingLeavesGone(s, t, fb, fv, ask, id);
    }
  }

  lemma ConsumingLeavesGone(s: System, t: System, fb: Feedback, fv: real, ask: real, id: OrderId)
    requires Inv(s) && Gone(s, id) && s.feedback != [] && fb == s.feedback[0] && !fb.RebalanceResult?
    requires Consumes(s, t, fb, NewShares(s.engine.quoter.At(fb.side), fb))
    requires var q, r := s.engine.quoter.At(fb.side), t.engine.quoter.At(fb.side);
             && (fb.OrderFailed? || (fb.OrderPosted? && fb.alreadyFilled) ==> r == q.PostFailed())
             && (fb.OrderPosted? && !fb.alreadyFilled ==>
                   r == q.Posted(ManagedOrder(fb.id, fb.price, fb.size, fv, ask, 0.0)))
             && (fb.CancelResult? ==> r == q.CancelDone())
    ensures Gone(t, id)
  {
    var x := fb.side;
    var flight := Flight(s, Maker(x));
    assert SideInv(x, s.engine.quoter.At(x), flight, s.accounts);
    FlightDelivered(s, t);
    assert flight == [Answered(fb)] && flight[0] == Answered(fb) && Flight(t, Maker(x)) == [];
    assert DoneWith(s.engine.quoter.At(x), flight, id);
    assert DoneWith(s.engine.quoter.At(Other(x)), Flight(s, Maker(Other(x))), id);
    assert !OpAbout(flight[0], id);
    BothDone(t, id, x);
  }

  lemma SendingLeavesGone(u: Setup, s: System, t: System, now: seq<Command>, later: seq<Command>, id: OrderId)
    requires Inv(s) && Gone(s, id) && EngineSends(u, s, t, now, later)
    ensures Gone(t, id)
  {
    forall x ensures DoneWith(t.engine.quoter.At(x), Flight(t, Maker(x)), id) {
      EngineSendsOnSide(u, s, t, now, later, x);
      assert DoneWith(s.engine.quoter.At(x), Flight(s, Maker(x)), id);
      SentIsAboutTheOrder(x, s.engine.quoter.At(x), t.engine.quoter.At(x),
                          CommandsOf(now, Maker(x)) + CommandsOf(later, Maker(x)), Flight(s, Maker(x)), id);
    }
  }

  lemma SentIsAboutTheOrder(x: Side, q: SideQuote, r: SideQuote, sent: seq<Op>, flight: seq<Op>, id: OrderId)
    requires SideSends(x, q, r, sent) && DoneWith(q, flight, id)
    ensures DoneWith(r, flight + sent, id)
  {
  }

  /** Answering a command about another order, or a post, whose order is new. */
  ghost predicate AnswerAbout(c: Command, f: Feedback, newId: OrderId) {
    && (f.OrderPosted? ==> f.id == newId)
    && (f.CancelResult? ==> c.CancelOrder? && c.id == f.id)
  }

  lemma AnsweredIsAbout(q: SideQuote, c: Command, f: Feedback, newId: OrderId, id: OrderId)
    requires DoneWith(q, [Sent(c)], id) && AnswerAbout(c, f, newId) && id < newId
    ensures DoneWith(q, [Answered(f)], id)
  {
    assert !OpAbout([Sent(c)][0], id);
  }

  lemma AnswerLeavesGone(s: System, t: System, f: Feedback, id: OrderId)
    requires Inv(s) && Gone(s, id) && Answers(s, t, f) && |s.accounts| <= |t.accounts|
    requires AnswerAbout(s.commands[0], f, |s.accounts|)
    ensures Gone(t, id)
  {
    assert SideInv(Yes, s.engine.quoter.At(Yes), Flight(s, Maker(Yes)), s.accounts);
    assert SideInv(No, s.engine.quoter.At(No), Flight(s, Maker(No)), s.accounts);
    FlightAnswered(s, t, f);
    forall z ensures DoneWith(t.engine.quoter.At(z), Flight(t, Maker(z)), id) {
      var q := s.engine.quoter.At(z);
      assert DoneWith(q, Flight(s, Maker(z)), id);
      if ReplySlot(f) == Maker(z) {
        AnsweredIsAbout(q, s.commands[0], f, |s.accounts|, id);
      }
    }
  }

  lemma KeepingMakersLeavesGone(s: System, t: System, id: OrderId)
    requires Gone(s, id) && |s.accounts| <= |t.accounts| && t.engine.quoter == s.engine.quoter
    requires forall x :: Flight(t, Maker(x)) == Flight(s, Maker(x))
    ensures Gone(t, id)
  {
    forall z ensures DoneWith(t.engine.quoter.At(z), Flight(t, Maker(z)), id) {
      assert DoneWith(s.engine.quoter.At(z), Flight(s, Maker(z)), id);
    }
  }

  lemma MatchLeavesGone(s: System, oid: OrderId, amount: real, id: OrderId)
    requires Gone(s, id) && MatchPossible(s, oid, amount)
    ensures Gone(MatchStep(s, oid, amount), id)
  {
    FlightSame(s, MatchStep(s, oid, amount));
    KeepingMakersLeavesGone(s, MatchStep(s, oid, amount), id);
  }

  lemma PostLeavesGone(u: Setup, s: System, r: PostResponse, id: OrderId)
    requires Inv(s) && Gone(s, id) && Enabled(u, s, ExecPost(r))
    ensures Gone(PostStep(s, r), id)
  {
    var c := s.commands[0];
    PostAnswerFits(u, s, r);
    AnswerLeavesGone(s, PostStep(s, r), ReplyToPost(s.cachesWarm, c.side, c.price, c.size, r), id);
  }

  lemma CancelLeavesGone(u: Setup, s: System, stillLive: bool, reported: Option<real>, id: OrderId)
    requires Inv(s) && Gone(s, id) && Enabled(u, s, ExecCancel(stillLive, reported))
    ensures Gone(CancelStep(s, stillLive, reported), id)
  {
    var c := s.commands[0];
    AnswerLeavesGone(s, CancelStep(s, stillLive, reported), ReplyToCancel(c.side, c.id, reported), id);
  }

  lemma RebalanceLeavesGone(u: Setup, s: System, r: TakerResponse, id: OrderId)
    requires Inv(s) && Gone(s, id) && Enabled(u, s, ExecRebalance(r))
    ensures Gone(RebalanceStep(u, s, r), id)
  {
    var c := s.commands[0];
    AnswerLeavesGone(s, RebalanceStep(u, s, r),
                     ReplyToRebalance(s.cachesWarm, c.side, c.price, c.size, u.scale, r), id);
  }

  lemma StepLeavesGone(u: Setup, s: System, a: Action, id: OrderId)
    requires Inv(s) && Gone(s, id) && Enabled(u, s, a)
    ensures Gone(Next(u, s, a), id)
  {
    if IsEngineStep(a) {
      var now, later := EngineStepSends(u, s, a);
      SendingLeavesGone(u, s, Next(u, s, a), now, later, id);
    } else {
      match a
      case UserUpdate(oid, isMatch, size) => UpdateLeavesGone(s, oid, isMatch, size, id);
      case Deliver(fvYes) => DeliverLeavesGone(s, fvYes, id);
      case Flush =>
        FlushMovesAlong(s);
        KeepingMakersLeavesGone(s, FlushStep(s), id);
      case Match(oid, amount) => MatchLeavesGone(s, oid, amount, id);
      case ExecRotation(warmed) =>
        RotationMovesAlong(u, s, warmed);
        KeepingMakersLeavesGone(s, Next(u, s, a), id);
      case ExecPost(r) => PostLeavesGone(u, s, r, id);
      case ExecCancel(stillLive, reported) => CancelLeavesGone(u, s, stillLive, reported, id);
      case ExecRebalance(r) => RebalanceLeavesGone(u, s, r, id);
    }
  }

  // ── At most once ──

  ghost predicate IsCancelResultOf(s: System, a: Action, id: OrderId) {
    a.Deliver? && s.feedback != [] && s.feedback[0].CancelResult? && s.feedback[0].id == id
  }

  /** Cancel results for `id` that the engine consumes in a run. */
  ghost function CancelResults(u: Setup, s: System, run: seq<Action>, id: OrderId): nat
    requires RunFrom(u, s, run)
    decreases |run|
  {
    if run == [] then 0
    else (if IsCancelResultOf(s, run[0], id) then 1 else 0) + CancelResults(u, Next(u, s, run[0]), run[1..], id)
  }

  /** Only one side knows an order. */
  lemma OtherSideIsDone(s: System, x: Side, id: OrderId)
    requires Inv(s) && id < |s.accounts| && s.accounts[id].side == x
    ensures DoneWith(s.engine.quoter.At(Other(x)), Flight(s, Maker(Other(x))), id)
  {
    var y := Other(x);
    assert SideInv(y, s.engine.quoter.At(y), Flight(s, Maker(y)), s.accounts);
  }

  /** A consumed cancel result is the last anyone hears of its order. */
  lemma CancelResultEndsTheOrder(s: System, fvYes: real)
    requires Inv(s) && s.feedback != [] && s.feedback[0].CancelResult?
    ensures Gone(DeliverStep(s, fvYes), s.feedback[0].id)
  {
    var t, fb := DeliverStep(s, fvYes), s.feedback[0];
    var x := fb.side;
    var q := s.engine.quoter.At(x);
    assert SideInv(x, q, Flight(s, Maker(x)), s.accounts);
    DeliverConsumes(s, fvYes);
    var _, _ := DeliverQuote(s, fvYes);
    FlightDelivered(s, t);
    assert Flight(s, Maker(x)) == [Answered(fb)] && Flight(t, Maker(x)) == [];
    CancelledFits(x, q, fb, s.accounts);
    OtherSideIsDone(s, x, fb.id);
    BothDone(t, fb.id, x);
  }

  lemma {:induction false} GoneOrdersGetNoResult(u: Setup, s: System, run: seq<Action>, id: OrderId)
    requires Inv(s) && Gone(s, id) && RunFrom(u, s, run)
    ensures CancelResults(u, s, run, id) == 0
    decreases |run|
  {
    if run != [] {
      var a := run[0];
      NoResultUnderWay(s, a, id);
      StepKeepsInv(u, s, a);
      StepLeavesGone(u, s, a, id);
      GoneOrdersGetNoResult(u, Next(u, s, a), run[1..], id);
    }
  }

  lemma NoResultUnderWay(s: System, a: Action, id: OrderId)
    requires Inv(s) && Gone(s, id)
    ensures !IsCancelResultOf(s, a, id)
  {
    if s.feedback != [] && s.feedback[0].CancelResult? {
      var x := s.feedback[0].side;
      assert DoneWith(s.engine.quoter.At(x), Flight(s, Maker(x)), id);
      assert Flight(s, Maker(x))[0] == Answered(s.feedback[0]);
    }
  }

  /** In every run, whatever the interleaving, the engine consumes at most one cancel result per order. */
  lemma {:induction false} AtMostOneCancelResult(u: Setup, s: System, run: seq<Action>, id: OrderId)
    requires Inv(s) && RunFrom(u, s, run)
    ensures CancelResults(u, s, run, id) <= 1
    decreases |run|
  {
    if run != [] {
      var a := run[0];
      StepKeepsInv(u, s, a);
      if IsCancelResultOf(s, a, id) {
        CancelResultEndsTheOrder(s, a.fvYes);
        GoneOrdersGetNoResult(u, Next(u, s, a), run[1..], id);
      } else {
        AtMostOneCancelResult(u, Next(u, s, a), run[1..], id);
      }
    }
  }

  lemma EveryOrderIsCancelledAtMostOnce(u: Setup, run: seq<Action>, id: OrderId)
    requires RunFrom(u, START, run)
    ensures CancelResults(u, START, run, id) <= 1
  {
    StartInv();
    AtMostOneCancelResult(u, START, run, id);
  }
}
