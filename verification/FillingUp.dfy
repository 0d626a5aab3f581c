/** Continuations without ticks: from any state without a rebalance under way, each side can be filled with all that
    is open on it, or with no more than what is already on its way. */
module FillingUp {
  import opened Common
  import opened Quoting
  import opened Orders
  import opened Strategy
  import opened Executor
  import opened Lifecycle
  import opened Protocol
  import opened ProtocolRuns
  import opened OpenRoom
  import FillAccounting

  predicate NoTicks(run: seq<Action>) {
    forall a :: a in run ==> !a.Tick?
  }

  // ── Without a tick nothing is rebalanced ──

  lemma FeedbackRebalancesNothing(e: EngineState, fb: Feedback, fvYes: real)
    requires !e.pendingRebalance
    ensures !OnFeedback(e, fb, fvYes).pendingRebalance
  {
  }

  lemma EngineRebalancesNothing(u: Setup, s: System, a: Action)
    requires IsEngineStep(a) && !a.Tick? && !s.engine.pendingRebalance
    ensures !Next(u, s, a).engine.pendingRebalance
  {
  }

  lemma OnlyTicksRebalance(u: Setup, s: System, a: Action)
    requires Enabled(u, s, a) && !a.Tick? && !s.engine.pendingRebalance
    ensures !Next(u, s, a).engine.pendingRebalance
  {
    if IsEngineStep(a) {
      EngineRebalancesNothing(u, s, a);
    } else {
      match a
      case UserUpdate(id, isMatch, size) => UserUpdateEffect(s.engine, id, isMatch, size);
      case Deliver(fvYes) => FeedbackRebalancesNothing(s.engine, s.feedback[0], fvYes);
      case _ =>
    }
  }

  // ── What is aimed at ──

  /** Which sides to fill with everything open. */
  datatype Plan = Plan(yes: bool, no: bool) {
    predicate Fills(x: Side) {
      if x == Yes then yes else no
    }
  }

  /** What a side is to hold in the end. */
  ghost function Aim(s: System, x: Side, p: Plan): real {
    if p.Fills(x) then Reach(s, x) else Least(s, x)
  }

  ghost predicate Calm(s: System) {
    Inv(s) && !s.engine.pendingRebalance
  }

  ghost predicate KeepsAims(s: System, t: System, p: Plan) {
    Aim(t, Yes, p) == Aim(s, Yes, p) && Aim(t, No, p) == Aim(s, No, p)
  }

  lemma BothAims(s: System, t: System, p: Plan, x: Side)
    requires Aim(t, x, p) == Aim(s, x, p) && SameSide(s, t, Other(x))
    ensures KeepsAims(s, t, p)
  {
    assert Other(x) == Yes || Other(x) == No;
  }

  /** Steps a resting order still needs to be filled with all its room: matched and reported, or reported. */
  function Steps(q: SideQuote, accounts: seq<Account>): nat {
    if q.order.None? || Unbooked(accounts, q.order.value.id) <= 0.0 then 0
    else if Unmatched(accounts, q.order.value.id) then 2
    else 1
  }

  function Ripe(s: System, x: Side, p: Plan): nat {
    if p.Fills(x) then Steps(s.engine.quoter.At(x), s.accounts) else 0
  }

  predicate Unmatched(accounts: seq<Account>, id: OrderId) {
    id < |accounts| && accounts[id].matched < Limit(accounts[id])
  }

  /** Messages still to be handled, weighted by how far they have to go. */
  function Work(s: System): nat {
    |s.feedback| + 2 * |s.commands| + 3 * |s.engine.pending|
  }

  function Ripeness(s: System, p: Plan): nat {
    Ripe(s, Yes, p) + Ripe(s, No, p)
  }

  predicate Progress(s: System, t: System, p: Plan) {
    Work(t) < Work(s) || (Work(t) == Work(s) && Ripeness(t, p) < Ripeness(s, p))
  }

  /** A step that keeps the aims and makes progress. */
  ghost predicate Helps(s: System, t: System, p: Plan) {
    Calm(t) && KeepsAims(s, t, p) && Progress(s, t, p)
  }

  ghost predicate Advances(u: Setup, s: System, a: Action, p: Plan) {
    Enabled(u, s, a) && !a.Tick? && Helps(s, Next(u, s, a), p)
  }

  // ── Messages ──

  /** A consumed answer helps if its side has nothing left to fill first. */
  lemma ConsumedHelps(s: System, t: System, p: Plan, x: Side)
    requires Inv(t) && !t.engine.pendingRebalance && s.feedback != []
    requires t.feedback == s.feedback[1..] && t.commands == s.commands && t.engine.pending == s.engine.pending
    requires Least(t, x) == Least(s, x) && SameSide(s, t, Other(x)) && (p.Fills(x) ==> Reach(t, x) == Reach(s, x))
    ensures Helps(s, t, p)
  {
    BothAims(s, t, p, x);
  }

  lemma NothingToFillFirst(s: System, p: Plan, x: Side)
    requires Inv(s) && Ripeness(s, p) == 0 && p.Fills(x)
    ensures var q := s.engine.quoter.At(x);
            q.order.None? || OrderRoom(q, Flight(s, Maker(x)), s.accounts) == 0.0
  {
    OrderRoomNonNegative(x, s.engine.quoter.At(x), Flight(s, Maker(x)), s.accounts);
    assert Ripe(s, x, p) == 0;
  }

  lemma DeliveryHelps(s: System, p: Plan)
    requires Calm(s) && s.feedback != [] && Ripeness(s, p) == 0
    ensures Helps(s, DeliverStep(s, 0.5), p)
  {
    DeliveryReach(s, 0.5);
    if p.Fills(s.feedback[0].side) {
      NothingToFillFirst(s, p, s.feedback[0].side);
    }
    DeliverKeepsInv(s, 0.5);
    DeliverConsumes(s, 0.5);
    ConsumedHelps(s, DeliverStep(s, 0.5), p, s.feedback[0].side);
  }

  lemma FlushHelps(s: System, p: Plan)
    requires Calm(s) && s.engine.pending != []
    ensures Helps(s, FlushStep(s), p)
  {
    FlushReach(s, Yes);
    FlushReach(s, No);
    FlushMovesAlong(s);
    MovingAlongKeepsInv(s, FlushStep(s));
  }

  lemma AnswersHelp(s: System, t: System, f: Feedback, p: Plan, x: Side)
    requires Calm(s) && Inv(t) && Answers(s, t, f)
    requires Reach(t, x) == Reach(s, x) && Least(t, x) == Least(s, x) && SameSide(s, t, Other(x))
    ensures Helps(s, t, p)
  {
    BothAims(s, t, p, x);
  }

  lemma PostHelps(u: Setup, s: System, p: Plan)
    requires Calm(s) && s.commands != [] && s.commands[0].PostOrder?
    ensures Enabled(u, s, ExecPost(Welcome(s))) && Helps(s, PostStep(s, Welcome(s)), p)
  {
    var c, r := s.commands[0], Welcome(s);
    PostReach(u, s, r);
    PostKeepsInv(u, s, r);
    AnswersHelp(s, PostStep(s, r), ReplyToPost(s.cachesWarm, c.side, c.price, c.size, r), p, c.side);
  }

  lemma CancelHelps(u: Setup, s: System, p: Plan)
    requires Calm(s) && s.commands != [] && s.commands[0].CancelOrder?
    ensures Helps(s, CancelStep(s, true, None), p)
  {
    var c := s.commands[0];
    CancelReach(u, s, true, None);
    CancelKeepsInv(u, s, true, None);
    AnswersHelp(s, CancelStep(s, true, None), ReplyToCancel(c.side, c.id, None), p, c.side);
  }

  lemma RotationHelps(u: Setup, s: System, p: Plan)
    requires Calm(s) && s.commands != [] && s.commands[0].MarketRotation?
    ensures Helps(s, Next(u, s, ExecRotation(true)), p)
  {
    RotationReach(u, s, true, Yes);
    RotationReach(u, s, true, No);
    RotationMovesAlong(u, s, true);
    MovingAlongKeepsInv(s, Next(u, s, ExecRotation(true)));
  }

  /** The oldest message, handled in the orders' favour. */
  lemma NextMessage(u: Setup, s: System, p: Plan) returns (a: Action)
    requires Calm(s) && Work(s) > 0 && Ripeness(s, p) == 0
    ensures Advances(u, s, a, p)
  {
    if s.feedback != [] {
      DeliveryHelps(s, p);
      a := Deliver(0.5);
    } else if s.commands == [] {
      FlushHelps(s, p);
      a := Flush;
    } else {
      a := NextCommand(u, s, p);
    }
  }

  lemma NextCommand(u: Setup, s: System, p: Plan) returns (a: Action)
    requires Calm(s) && s.commands != []
    ensures Advances(u, s, a, p)
  {
    match s.commands[0]
    case PostOrder(_, _, _) =>
      PostHelps(u, s, p);
      a := ExecPost(Welcome(s));
    case CancelOrder(_, _) =>
      CancelHelps(u, s, p);
      a := ExecCancel(true, None);
    case MarketRotation =>
      RotationHelps(u, s, p);
      a := ExecRotation(true);
    case RebalanceTaker(_, _, _) =>
      RebalanceWaits(s);
      assert false;
  }

  // ── Resting orders ──

  lemma RestingOrder(s: System, x: Side) returns (id: OrderId)
    requires Inv(s) && s.engine.quoter.At(x).order.Some?
    ensures s.engine.quoter.At(x).order.value.id == id && id < |s.accounts| && s.accounts[id].side == x
    ensures 0.0 <= s.accounts[id].recorded == s.engine.quoter.At(x).order.value.sizeFilled
    ensures s.accounts[id].recorded <= s.accounts[id].matched <= s.accounts[id].size
    ensures OrderRoom(s.engine.quoter.At(x), Flight(s, Maker(x)), s.accounts)
         == Limit(s.accounts[id]) - s.accounts[id].recorded
  {
    id := s.engine.quoter.At(x).order.value.id;
    assert SideInv(x, s.engine.quoter.At(x), Flight(s, Maker(x)), s.accounts);
    assert AccountsInv(s.accounts);
  }

  /** The other side's order does not ripen. */
  lemma OtherSteps(y: Side, q: SideQuote, flight: seq<Op>, a: seq<Account>, b: seq<Account>)
    requires SideInv(y, q, flight, a) && |b| == |a|
    requires forall i :: 0 <= i < |a| && a[i].side == y ==> b[i] == a[i]
    ensures Steps(q, b) == Steps(q, a)
  {
  }

  /** Progress with one side's order. */
  lemma OneSideRipens(s: System, t: System, p: Plan, x: Side)
    requires Inv(s) && Work(t) == Work(s) && p.Fills(x)
    requires Steps(t.engine.quoter.At(x), t.accounts) < Steps(s.engine.quoter.At(x), s.accounts)
    requires t.engine.quoter.At(Other(x)) == s.engine.quoter.At(Other(x)) && |t.accounts| == |s.accounts|
    requires forall i :: 0 <= i < |s.accounts| && s.accounts[i].side == Other(x) ==> t.accounts[i] == s.accounts[i]
    ensures Progress(s, t, p)
  {
    var y := Other(x);
    assert SideInv(y, s.engine.quoter.At(y), Flight(s, Maker(y)), s.accounts);
    OtherSteps(y, s.engine.quoter.At(y), Flight(s, Maker(y)), s.accounts, t.accounts);
    assert y == Yes || y == No;
  }

  /** The exchange fills what is left of a live order. */
  lemma MatchHelps(s: System, p: Plan, x: Side) returns (id: OrderId, rest: real)
    requires Calm(s) && Ripe(s, x, p) == 2
    ensures MatchPossible(s, id, rest) && Helps(s, MatchStep(s, id, rest), p)
  {
    id := RestingOrder(s, x);
    rest := Limit(s.accounts[id]) - s.accounts[id].matched;
    var t := MatchStep(s, id, rest);
    MatchReach(s, id, rest, Yes);
    MatchReach(s, id, rest, No);
    MatchKeepsInv(s, id, rest);
    OneSideRipens(s, t, p, x);
  }

  lemma ReportBooks(e: EngineState, x: Side, id: OrderId, matched: real)
    requires MatchedSide(e.quoter, id) == Some(x) && e.quoter.At(x).order.Some?
    requires 0.0 < matched && e.quoter.At(x).order.value.sizeFilled < matched
    ensures OnTradeStatus(e, id, true, Some(matched)) != e
  {
    assert OnTradeStatus(e, id, true, Some(matched)).Shares(x) > e.Shares(x);
  }

  /** The user channel reports everything that is matched. */
  lemma ReportUpdates(s: System, x: Side, id: OrderId)
    requires Inv(s) && s.engine.quoter.At(x).order.Some? && s.engine.quoter.At(x).order.value.id == id
    requires id < |s.accounts| && s.engine.quoter.At(x).order.value.sizeFilled < s.accounts[id].matched
    requires 0.0 <= s.engine.quoter.At(x).order.value.sizeFilled
    ensures UpdatesOrder(s, UpdateStep(s, id, true, Some(s.accounts[id].matched)), x, id, s.accounts[id].matched)
  {
    FillAccounting.NamesOneSide(s, id, x);
    ReportBooks(s.engine, x, id, s.accounts[id].matched);
    UpdateOutcome(s, id, true, Some(s.accounts[id].matched));
  }

  lemma FullyReported(x: Side, q: SideQuote, flight: seq<Op>, accounts: seq<Account>)
    requires AccountsInv(accounts) && SideInv(x, q, flight, accounts) && q.order.Some?
    requires accounts[q.order.value.id].matched == Limit(accounts[q.order.value.id])
    ensures var cumulative := accounts[q.order.value.id].matched;
            Steps(Reported(q, cumulative), Credit(accounts, q.order.value.id, q.WsDelta(cumulative))) == 0
  {
    ReportedRoom(x, q, flight, accounts, accounts[q.order.value.id].matched);
  }

  /** A report of everything that can be matched helps. */
  lemma ReportedHelps(s: System, t: System, p: Plan, x: Side, id: OrderId, cumulative: real)
    requires Calm(s) && Inv(t) && UpdatesOrder(s, t, x, id, cumulative) && Ripe(s, x, p) == 1
    requires Reach(t, x) == Reach(s, x) && SameSide(s, t, Other(x))
    requires Steps(t.engine.quoter.At(x), t.accounts) == 0
    requires id < |s.accounts| && s.accounts[id].side == x
    ensures Helps(s, t, p)
  {
    BothAims(s, t, p, x);
    OneSideRipens(s, t, p, x);
  }

  lemma ReportHelps(s: System, p: Plan, x: Side) returns (id: OrderId)
    requires Calm(s) && Ripe(s, x, p) == 1
    ensures id < |s.accounts| && TruthfulUpdate(s, id, Some(s.accounts[id].matched))
    ensures Helps(s, UpdateStep(s, id, true, Some(s.accounts[id].matched)), p)
  {
    id := RestingOrder(s, x);
    var matched, q := s.accounts[id].matched, s.engine.quoter.At(x);
    var t := UpdateStep(s, id, true, Some(matched));
    ReportUpdates(s, x, id);
    UpdatingKeepsReach(s, t, x, id, matched);
    UpdateKeepsInv(s, id, true, Some(matched));
    assert SideInv(x, q, Flight(s, Maker(x)), s.accounts);
    FullyReported(x, q, Flight(s, Maker(x)), s.accounts);
    ReportedHelps(s, t, p, x, id, matched);
  }

  // ── The whole continuation ──

  lemma Prepend(u: Setup, s: System, a: Action, rest: seq<Action>)
    requires Enabled(u, s, a) && !a.Tick? && RunFrom(u, Next(u, s, a), rest) && NoTicks(rest)
    ensures RunFrom(u, s, [a] + rest) && NoTicks([a] + rest)
    ensures After(u, s, [a] + rest) == After(u, Next(u, s, a), rest)
  {
    assert ([a] + rest)[1..] == rest;
  }

  /** With nothing to be filled and nothing under way a side holds what it was to hold. */
  lemma NothingLeft(s: System, p: Plan, x: Side)
    requires Calm(s) && Work(s) == 0 && Ripe(s, x, p) == 0
    ensures s.engine.Shares(x) == Aim(s, x, p)
  {
    assert Flight(s, Maker(x)) == [];
    assert Queue(s) == [];
    OrderRoomNonNegative(x, s.engine.quoter.At(x), Flight(s, Maker(x)), s.accounts);
  }

  lemma MatchAction(u: Setup, s: System, p: Plan, x: Side) returns (a: Action)
    requires Calm(s) && Ripe(s, x, p) == 2
    ensures Advances(u, s, a, p)
  {
    var id, amount := MatchHelps(s, p, x);
    a := Match(id, amount);
  }

  lemma ReportAction(u: Setup, s: System, p: Plan, x: Side) returns (a: Action)
    requires Calm(s) && Ripe(s, x, p) == 1
    ensures Advances(u, s, a, p)
  {
    var id := ReportHelps(s, p, x);
    a := UserUpdate(id, true, Some(s.accounts[id].matched));
  }

  lemma RipeAction(u: Setup, s: System, p: Plan, x: Side) returns (a: Action)
    requires Calm(s) && Ripe(s, x, p) > 0
    ensures Advances(u, s, a, p)
  {
    if Ripe(s, x, p) == 2 {
      a := MatchAction(u, s, p, x);
    } else {
      a := ReportAction(u, s, p, x);
    }
  }

  lemma NextAction(u: Setup, s: System, p: Plan) returns (a: Action)
    requires Calm(s) && (Work(s) > 0 || Ripeness(s, p) > 0)
    ensures Advances(u, s, a, p)
  {
    if Ripeness(s, p) == 0 {
      a := NextMessage(u, s, p);
    } else {
      a := RipeAction(u, s, p, if Ripe(s, Yes, p) > 0 then Yes else No);
    }
  }

  /** The continuation leaves both sides with what the plan aims at. */
  ghost predicate CarriesOut(u: Setup, s: System, rest: seq<Action>, p: Plan) {
    && RunFrom(u, s, rest) && NoTicks(rest)
    && After(u, s, rest).engine.Shares(Yes) == Aim(s, Yes, p)
    && After(u, s, rest).engine.Shares(No) == Aim(s, No, p)
  }

  lemma PrependCarriesOut(u: Setup, s: System, a: Action, rest: seq<Action>, p: Plan)
    requires Advances(u, s, a, p) && CarriesOut(u, Next(u, s, a), rest, p)
    ensures CarriesOut(u, s, [a] + rest, p)
  {
    Prepend(u, s, a, rest);
  }

  /** Every plan can be carried out, by some continuation without ticks. */
  lemma {:induction false} PlanIsCarriedOut(u: Setup, s: System, p: Plan) returns (rest: seq<Action>)
    requires Calm(s)
    ensures CarriesOut(u, s, rest, p)
    decreases Work(s), Ripeness(s, p)
  {
    if Work(s) == 0 && Ripeness(s, p) == 0 {
      rest := [];
      NothingLeft(s, p, Yes);
      NothingLeft(s, p, No);
    } else {
      var a := NextAction(u, s, p);
      var more := PlanIsCarriedOut(u, Next(u, s, a), p);
      PrependCarriesOut(u, s, a, more, p);
      rest := [a] + more;
    }
  }
}
