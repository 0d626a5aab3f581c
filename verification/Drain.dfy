/** When cancels are reliable (the order is dead afterwards and the status query returns its final matched
    size), every order that is neither resting nor just posted is settled. So once the engine reports that
    nothing is open, only a rebalance still under way can keep its position from being the exchange's truth. */
module Drain {
  import opened Common
  import opened Quoting
  import opened Orders
  import opened Strategy
  import opened Executor
  import opened Lifecycle
  import opened Protocol
  import opened ProtocolRuns
  import opened FillAccounting
  import opened TakerAccounting

  ghost predicate ReliableAction(s: System, a: Action) {
    a.ExecCancel? && s.commands != [] && s.commands[0].CancelOrder? && s.commands[0].id < |s.accounts| ==>
      !a.stillLive && a.reported == Some(s.accounts[s.commands[0].id].matched)
  }

  ghost predicate ReliableRun(u: Setup, s: System, run: seq<Action>)
    requires RunFrom(u, s, run)
    decreases |run|
  {
    run == [] || (ReliableAction(s, run[0]) && ReliableRun(u, Next(u, s, run[0]), run[1..]))
  }

  /** The order rests, or its acceptance has not been consumed yet. */
  ghost predicate Open(q: SideQuote, flight: seq<Op>, id: OrderId) {
    || (q.order.Some? && q.order.value.id == id)
    || (|flight| == 1 && flight[0].Answered? && flight[0].reply.OrderPosted? && flight[0].reply.id == id)
  }

  /** A cancel result under way carries the final word about its order. */
  ghost predicate FinalAnswer(flight: seq<Op>, accounts: seq<Account>) {
    |flight| == 1 && flight[0].Answered? && flight[0].reply.CancelResult? ==>
      var fb := flight[0].reply;
      fb.id < |accounts| && !accounts[fb.id].live && fb.sizeMatched == Some(accounts[fb.id].matched)
  }

  ghost predicate SideDrains(x: Side, q: SideQuote, flight: seq<Op>, accounts: seq<Account>) {
    && FinalAnswer(flight, accounts)
    && forall id :: 0 <= id < |accounts| && accounts[id].side == x ==> Settled(accounts[id]) || Open(q, flight, id)
  }

  ghost predicate Drains(s: System) {
    forall x :: SideDrains(x, s.engine.quoter.At(x), Flight(s, Maker(x)), s.accounts)
  }

  /** Orders of `x` are untouched, except that dead ones may be marked so. */
  lemma DrainFrame(x: Side, q: SideQuote, r: SideQuote, flight: seq<Op>, after: seq<Op>,
                   a: seq<Account>, b: seq<Account>)
    requires SideDrains(x, q, flight, a)
    requires r.order == q.order
    requires after == flight || (flight == [] && |after| == 1 && after[0].Sent?)
    requires |a| <= |b|
    requires forall i :: 0 <= i < |a| && a[i].side == x ==> b[i] == a[i]
    requires forall i :: 0 <= i < |a| ==>
               b[i].side == a[i].side && (!a[i].live ==> !b[i].live && b[i].matched == a[i].matched)
    requires forall i :: |a| <= i < |b| ==> b[i].side != x
    ensures SideDrains(x, r, after, b)
  {
  }

  // ── Steps ──

  /** A step on side `x` that books something for one of its orders, or for none. */
  lemma OtherSideDrains(s: System, t: System, x: Side, id: OrderId, delta: real)
    requires Drains(s)
    requires t.accounts == s.accounts
          || (id < |s.accounts| && s.accounts[id].side == x && t.accounts == Credit(s.accounts, id, delta))
    requires t.engine.quoter.At(Other(x)) == s.engine.quoter.At(Other(x))
    requires Flight(t, Maker(Other(x))) == Flight(s, Maker(Other(x)))
    requires SideDrains(x, t.engine.quoter.At(x), Flight(t, Maker(x)), t.accounts)
    ensures Drains(t)
  {
    var y := Other(x);
    assert SideDrains(y, s.engine.quoter.At(y), Flight(s, Maker(y)), s.accounts);
    DrainFrame(y, s.engine.quoter.At(y), t.engine.quoter.At(y), Flight(s, Maker(y)), Flight(t, Maker(y)),
               s.accounts, t.accounts);
    forall z ensures SideDrains(z, t.engine.quoter.At(z), Flight(t, Maker(z)), t.accounts) {
      assert z == x || z == y;
    }
  }

  lemma UpdateDrains(s: System, id: OrderId, isMatch: bool, size: Option<real>)
    requires Inv(s) && Drains(s) && TruthfulUpdate(s, id, size)
    ensures Drains(UpdateStep(s, id, isMatch, size))
  {
    UpdateOutcome(s, id, isMatch, size);
    var t := UpdateStep(s, id, isMatch, size);
    if t != s {
      UpdatingDrains(s, t, MatchedSide(s.engine.quoter, id).value, id, size.value);
    }
  }

  lemma UpdatingDrains(s: System, t: System, x: Side, id: OrderId, cumulative: real)
    requires Inv(s) && Drains(s)
    requires TruthfulUpdate(s, id, Some(cumulative)) && UpdatesOrder(s, t, x, id, cumulative)
    ensures Drains(t)
  {
    var q := s.engine.quoter.At(x);
    FlightSame(s, t);
    assert SideInv(x, q, Flight(s, Maker(x)), s.accounts);
    assert SideDrains(x, q, Flight(s, Maker(x)), s.accounts);
    ReportedDrains(x, q, Flight(s, Maker(x)), s.accounts, cumulative);
    OtherSideDrains(s, t, x, id, q.WsDelta(cumulative));
  }

  lemma ReportedDrains(x: Side, q: SideQuote, flight: seq<Op>, accounts: seq<Account>, cumulative: real)
    requires AccountsInv(accounts) && SideInv(x, q, flight, accounts) && SideDrains(x, q, flight, accounts)
    requires q.order.Some? && cumulative <= accounts[q.order.value.id].matched
    ensures SideDrains(x, Reported(q, cumulative), flight, Credit(accounts, q.order.value.id, q.WsDelta(cumulative)))
  {
    ReportedFits(x, q, flight, accounts, cumulative);
  }

  lemma DeliverDrains(u: Setup, s: System, a: Action)
    requires Inv(s) && Drains(s) && a.Deliver? && Enabled(u, s, a)
    ensures Drains(Next(u, s, a))
  {
    var t, fb := DeliverStep(s, a.fvYes), s.feedback[0];
    if fb.RebalanceResult? {
      DeliverConsumesTaken(s, a.fvYes);
      TakenDrains(s, t, fb);
    } else {
      DeliverConsumes(s, a.fvYes);
      var fv, ask := DeliverQuote(s, a.fvYes);
      DeliverDrainsSide(s, t, fb, fv, ask);
      FlightDelivered(s, t);
      OtherSideDrains(s, t, fb.side, if fb.OrderFailed? then 0 else fb.id, NewShares(s.engine.quoter.At(fb.side), fb));
    }
  }

  lemma TakenDrains(s: System, t: System, fb: Feedback)
    requires Drains(s) && s.feedback != [] && fb == s.feedback[0] && fb.RebalanceResult?
    requires ConsumesTaken(s, t, fb)
    ensures Drains(t)
  {
    FlightDelivered(s, t);
    forall x ensures SideDrains(x, t.engine.quoter.At(x), Flight(t, Maker(x)), t.accounts) {
      assert SideDrains(x, s.engine.quoter.At(x), Flight(s, Maker(x)), s.accounts);
    }
  }

  /** What a consumed maker feedback message leaves behind on its side. */
  ghost predicate Consumed(q: SideQuote, r: SideQuote, fb: Feedback, fv: real, ask: real,
                           a: seq<Account>, b: seq<Account>)
    requires !fb.RebalanceResult?
  {
    && (fb.OrderFailed? || (fb.OrderPosted? && fb.alreadyFilled) ==> r == q.PostFailed())
    && (fb.OrderPosted? && !fb.alreadyFilled ==>
          r == q.Posted(ManagedOrder(fb.id, fb.price, fb.size, fv, ask, 0.0)))
    && (fb.CancelResult? ==> r == q.CancelDone())
    && b == (if fb.OrderFailed? then a else Credit(a, fb.id, NewShares(q, fb)))
  }

  lemma PostedDrains(x: Side, q: SideQuote, r: SideQuote, fb: Feedback, fv: real, ask: real,
                     a: seq<Account>, b: seq<Account>)
    requires AccountsInv(a) && SideInv(x, q, [Answered(fb)], a) && SideDrains(x, q, [Answered(fb)], a)
    requires fb.OrderPosted? && Consumed(q, r, fb, fv, ask, a, b)
    ensures fb.id < |a| && a[fb.id].side == x && SideDrains(x, r, [], b)
  {
    assert OpFits(x, q, [Answered(fb)][0], a);
  }

  lemma FailedDrains(x: Side, q: SideQuote, r: SideQuote, fb: Feedback, fv: real, ask: real,
                     a: seq<Account>, b: seq<Account>)
    requires SideInv(x, q, [Answered(fb)], a) && SideDrains(x, q, [Answered(fb)], a)
    requires fb.OrderFailed? && Consumed(q, r, fb, fv, ask, a, b)
    ensures SideDrains(x, r, [], b)
  {
    assert OpFits(x, q, [Answered(fb)][0], a);
  }

  lemma CancelledDrains(x: Side, q: SideQuote, r: SideQuote, fb: Feedback, fv: real, ask: real,
                        a: seq<Account>, b: seq<Account>)
    requires AccountsInv(a) && SideInv(x, q, [Answered(fb)], a) && SideDrains(x, q, [Answered(fb)], a)
    requires fb.CancelResult? && Consumed(q, r, fb, fv, ask, a, b)
    ensures fb.id < |a| && a[fb.id].side == x && SideDrains(x, r, [], b)
  {
    assert OpFits(x, q, [Answered(fb)][0], a);
    CancelledFits(x, q, fb, a);
    assert !a[fb.id].live && fb.sizeMatched == Some(a[fb.id].matched);
  }

  lemma DeliverDrainsSide(s: System, t: System, fb: Feedback, fv: real, ask: real)
    requires Inv(s) && Drains(s) && s.feedback != [] && fb == s.feedback[0] && !fb.RebalanceResult?
    requires t.feedback == s.feedback[1..] && t.commands == s.commands && t.engine.pending == s.engine.pending
    requires Consumed(s.engine.quoter.At(fb.side), t.engine.quoter.At(fb.side), fb, fv, ask, s.accounts, t.accounts)
    ensures !fb.OrderFailed? ==> fb.id < |s.accounts| && s.accounts[fb.id].side == fb.side
    ensures SideDrains(fb.side, t.engine.quoter.At(fb.side), Flight(t, Maker(fb.side)), t.accounts)
  {
    var x := fb.side;
    var q, r := s.engine.quoter.At(x), t.engine.quoter.At(x);
    FlightDelivered(s, t);
    assert SideInv(x, q, Flight(s, Maker(x)), s.accounts) && SideDrains(x, q, Flight(s, Maker(x)), s.accounts);
    assert Flight(s, Maker(x)) == [Answered(fb)] && Flight(t, Maker(x)) == [];
    match fb
    case OrderPosted(_, _, _, _, _) => PostedDrains(x, q, r, fb, fv, ask, s.accounts, t.accounts);
    case OrderFailed(_) => FailedDrains(x, q, r, fb, fv, ask, s.accounts, t.accounts);
    case CancelResult(_, _, _) => CancelledDrains(x, q, r, fb, fv, ask, s.accounts, t.accounts);
  }

  lemma MatchDrains(s: System, id: OrderId, amount: real)
    requires Inv(s) && Drains(s) && MatchPossible(s, id, amount)
    ensures Drains(MatchStep(s, id, amount))
  {
    var t := MatchStep(s, id, amount);
    FlightSame(s, t);
    forall x ensures SideDrains(x, t.engine.quoter.At(x), Flight(t, Maker(x)), t.accounts) {
      assert SideDrains(x, s.engine.quoter.At(x), Flight(s, Maker(x)), s.accounts);
    }
  }

  /** An answered command: its own side must drain, the other side is untouched. */
  lemma AnswerDrains(s: System, t: System, f: Feedback, x: Side)
    requires Inv(s) && Drains(s) && Answers(s, t, f) && ReplySlot(f) == Maker(x)
    requires |s.accounts| <= |t.accounts|
    requires forall i :: 0 <= i < |s.accounts| && s.accounts[i].side != x ==> t.accounts[i] == s.accounts[i]
    requires forall i :: 0 <= i < |s.accounts| ==> t.accounts[i].side == s.accounts[i].side
    requires forall i :: 0 <= i < |s.accounts| && !s.accounts[i].live ==>
               !t.accounts[i].live && t.accounts[i].matched == s.accounts[i].matched
    requires forall i :: |s.accounts| <= i < |t.accounts| ==> t.accounts[i].side == x
    requires SideDrains(x, s.engine.quoter.At(x), [Sent(s.commands[0])], s.accounts) ==>
               SideDrains(x, s.engine.quoter.At(x), [Answered(f)], t.accounts)
    ensures Drains(t)
  {
    var y := Other(x);
    assert SideInv(x, s.engine.quoter.At(x), Flight(s, Maker(x)), s.accounts);
    FlightAnswered(s, t, f);
    assert SideDrains(x, s.engine.quoter.At(x), Flight(s, Maker(x)), s.accounts);
    assert SideDrains(y, s.engine.quoter.At(y), Flight(s, Maker(y)), s.accounts);
    DrainFrame(y, s.engine.quoter.At(y), t.engine.quoter.At(y), Flight(s, Maker(y)), Flight(t, Maker(y)),
               s.accounts, t.accounts);
    forall z ensures SideDrains(z, t.engine.quoter.At(z), Flight(t, Maker(z)), t.accounts) {
      assert z == x || z == y;
    }
  }

  lemma PostDrains(u: Setup, s: System, r: PostResponse)
    requires Inv(s) && Drains(s) && Enabled(u, s, ExecPost(r))
    ensures Drains(PostStep(s, r))
  {
    var c := s.commands[0];
    var f := ReplyToPost(s.cachesWarm, c.side, c.price, c.size, r);
    assert f.OrderPosted? ==> f.id == |s.accounts|;
    AnswerDrains(s, PostStep(s, r), f, c.side);
  }

  lemma CancelDrains(u: Setup, s: System, stillLive: bool, reported: Option<real>)
    requires Inv(s) && Drains(s) && Enabled(u, s, ExecCancel(stillLive, reported))
    requires ReliableAction(s, ExecCancel(stillLive, reported))
    ensures Drains(CancelStep(s, stillLive, reported))
  {
    var t, c := CancelStep(s, stillLive, reported), s.commands[0];
    var f := ReplyToCancel(c.side, c.id, reported);
    CancelledOrderIsKnown(s, t, f);
    AnswerDrains(s, t, f, c.side);
  }

  lemma CancelledOrderIsKnown(s: System, t: System, f: Feedback)
    requires Inv(s) && Answers(s, t, f) && s.commands[0].CancelOrder?
    ensures s.commands[0].id < |s.accounts| && s.accounts[s.commands[0].id].side == s.commands[0].side
  {
    var c := s.commands[0];
    assert SideInv(c.side, s.engine.quoter.At(c.side), Flight(s, Maker(c.side)), s.accounts);
    FlightAnswered(s, t, f);
    assert OpFits(c.side, s.engine.quoter.At(c.side), [Sent(c)][0], s.accounts);
  }

  /** Steps that keep the accounts, and whose messages at most start new operations. */
  lemma SendingDrains(s: System, t: System)
    requires Inv(s) && Drains(s) && t.accounts == s.accounts
    requires forall x :: t.engine.quoter.At(x).order == s.engine.quoter.At(x).order
    requires forall x :: Flight(t, Maker(x)) == Flight(s, Maker(x))
                      || (Flight(s, Maker(x)) == [] && |Flight(t, Maker(x))| == 1 && Flight(t, Maker(x))[0].Sent?)
    ensures Drains(t)
  {
    forall x ensures SideDrains(x, t.engine.quoter.At(x), Flight(t, Maker(x)), t.accounts) {
      assert SideDrains(x, s.engine.quoter.At(x), Flight(s, Maker(x)), s.accounts);
      DrainFrame(x, s.engine.quoter.At(x), t.engine.quoter.At(x), Flight(s, Maker(x)), Flight(t, Maker(x)),
                 s.accounts, t.accounts);
    }
  }

  lemma EngineStepDrains(u: Setup, s: System, t: System, now: seq<Command>, later: seq<Command>)
    requires Inv(s) && Drains(s) && EngineSends(u, s, t, now, later)
    ensures Drains(t)
  {
    forall x
      ensures t.engine.quoter.At(x).order == s.engine.quoter.At(x).order
      ensures Flight(t, Maker(x)) == Flight(s, Maker(x))
           || (Flight(s, Maker(x)) == [] && |Flight(t, Maker(x))| == 1 && Flight(t, Maker(x))[0].Sent?)
    {
      EngineSendsOnSide(u, s, t, now, later, x);
    }
    SendingDrains(s, t);
  }

  lemma MovingAlongDrains(s: System, t: System)
    requires Inv(s) && Drains(s) && MovesAlong(s, t)
    ensures Drains(t)
  {
    SendingDrains(s, t);
  }

  lemma RebalanceDrains(u: Setup, s: System, r: TakerResponse)
    requires Inv(s) && Drains(s) && Enabled(u, s, ExecRebalance(r))
    ensures Drains(RebalanceStep(u, s, r))
  {
    var c := s.commands[0];
    FlightAnswered(s, RebalanceStep(u, s, r),
                   ReplyToRebalance(s.cachesWarm, c.side, c.price, c.size, u.scale, r));
    SendingDrains(s, RebalanceStep(u, s, r));
  }

  lemma StepDrains(u: Setup, s: System, a: Action)
    requires Inv(s) && Drains(s) && Enabled(u, s, a) && ReliableAction(s, a)
    ensures Drains(Next(u, s, a))
  {
    if IsEngineStep(a) {
      var now, later := EngineStepSends(u, s, a);
      EngineStepDrains(u, s, Next(u, s, a), now, later);
    } else {
      match a
      case UserUpdate(id, isMatch, size) => UpdateDrains(s, id, isMatch, size);
      case Deliver(_) => DeliverDrains(u, s, a);
      case Flush =>
        FlushMovesAlong(s);
        MovingAlongDrains(s, Next(u, s, a));
      case Match(id, amount) => MatchDrains(s, id, amount);
      case ExecRotation(warmed) =>
        RotationMovesAlong(u, s, warmed);
        MovingAlongDrains(s, Next(u, s, a));
      case ExecPost(r) => PostDrains(u, s, r);
      case ExecCancel(stillLive, reported) => CancelDrains(u, s, stillLive, reported);
      case ExecRebalance(r) => RebalanceDrains(u, s, r);
    }
  }

  lemma {:induction false} RunDrains(u: Setup, s: System, run: seq<Action>)
    requires Inv(s) && Drains(s) && RunFrom(u, s, run) && ReliableRun(u, s, run)
    ensures Drains(After(u, s, run)) && Inv(After(u, s, run))
    decreases |run|
  {
    if run != [] {
      StepDrains(u, s, run[0]);
      StepKeepsInv(u, s, run[0]);
      RunDrains(u, Next(u, s, run[0]), run[1..]);
    }
  }

  lemma {:induction false} SettledTotals(accounts: seq<Account>, x: Side)
    requires forall i :: 0 <= i < |accounts| && accounts[i].side == x ==> Settled(accounts[i])
    ensures Total(accounts, x, Recorded) == Total(accounts, x, Matched)
  {
    if accounts != [] {
      SettledTotals(accounts[..|accounts| - 1], x);
    }
  }

  lemma NothingOpenMeansSettled(s: System)
    requires Inv(s) && Drains(s) && NoOpenPosition(s.engine)
    ensures forall id :: 0 <= id < |s.accounts| ==> Settled(s.accounts[id])
  {
    forall id | 0 <= id < |s.accounts| ensures Settled(s.accounts[id]) {
      var y := s.accounts[id].side;
      assert y == Yes || y == No;
      assert SideInv(y, s.engine.quoter.At(y), Flight(s, Maker(y)), s.accounts);
      assert SideDrains(y, s.engine.quoter.At(y), Flight(s, Maker(y)), s.accounts);
    }
  }

  lemma NothingOpenMeansTrue(s: System, x: Side)
    requires Inv(s) && Drains(s) && NoOpenPosition(s.engine)
    ensures s.engine.Shares(x) == Total(s.accounts, x, Matched) + s.TakerShares(x)
    ensures forall id :: 0 <= id < |s.accounts| ==> Settled(s.accounts[id])
  {
    NothingOpenMeansSettled(s);
    SettledTotals(s.accounts, x);
    assert Conserved(s, x);
  }

  lemma StartDrains()
    ensures Inv(START) && Drains(START)
  {
    StartInv();
  }

  /** Nothing of the side is left to be booked but, perhaps, a rebalance. */
  lemma DrainedShares(u: Setup, run: seq<Action>, x: Side)
    requires RunFrom(u, START, run) && ReliableRun(u, START, run)
    requires NoOpenPosition(After(u, START, run).engine)
    ensures var s := After(u, START, run);
            && Inv(s)
            && s.engine.Shares(x) + Unheard(s, x) == Total(s.accounts, x, Matched) + Sold(u, START, run, x)
            && forall id :: 0 <= id < |s.accounts| ==> Settled(s.accounts[id])
  {
    StartDrains();
    RunDrains(u, START, run);
    NothingOpenMeansTrue(After(u, START, run), x);
    RebalancesAreBookedExactlyOnce(u, run, x);
  }

  /** The program's test for being done does not look at the pending rebalance. When it says that nothing is open,
      no order can be matched any further, and the position of a side is all that the exchange has matched and sold
      for it exactly when no filled rebalance of that side waits in the channel. */
  lemma NothingOpenMeansPositionIsTrueExactly(u: Setup, run: seq<Action>, x: Side)
    requires RunFrom(u, START, run) && ReliableRun(u, START, run)
    requires NoOpenPosition(After(u, START, run).engine)
    ensures var s := After(u, START, run);
            && (forall id :: 0 <= id < |s.accounts| ==> Settled(s.accounts[id]))
            && (s.engine.Shares(x) == Total(s.accounts, x, Matched) + Sold(u, START, run, x)
                <==> !exists f :: f in s.feedback && FilledAnswer(f, x))
  {
    DrainedShares(u, run, x);
    UnheardIsInTheChannel(After(u, START, run), x);
  }

  /** So the test would be sound if it also asked for the pending rebalance. */
  lemma NothingPendingMeansPositionIsTrue(u: Setup, run: seq<Action>, x: Side)
    requires RunFrom(u, START, run) && ReliableRun(u, START, run)
    requires NoOpenPosition(After(u, START, run).engine) && !After(u, START, run).engine.pendingRebalance
    ensures var s := After(u, START, run);
            && s.engine.Shares(x) == Total(s.accounts, x, Matched) + Sold(u, START, run, x)
            && forall id :: 0 <= id < |s.accounts| ==> Settled(s.accounts[id])
  {
    DrainedShares(u, run, x);
    UnheardIsInTheChannel(After(u, START, run), x);
  }
}
