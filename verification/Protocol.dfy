/** The per-side protocol invariant: what the pending flags, the operations in flight, the tracked order and
    the exchange's accounts have to do with each other, in every reachable state. */
module Protocol {
  import opened Common
  import opened Quoting
  import opened Orders
  import opened Strategy
  import opened Executor
  import opened Lifecycle

  /** The exchange's account agrees with what the engine believes about an order. */
  ghost predicate Agrees(x: Side, id: OrderId, price: real, size: real, recorded: real, accounts: seq<Account>) {
    && id < |accounts|
    && accounts[id].side == x && accounts[id].price == price
    && accounts[id].size == size && accounts[id].recorded == recorded
  }

  /** An order awaiting its first feedback: not yet tracked, nothing booked. */
  ghost predicate AwaitsPost(q: SideQuote) {
    q.pendingPost && !q.pendingCancel && q.order.None?
  }

  ghost predicate AwaitsCancel(x: Side, q: SideQuote, id: OrderId, accounts: seq<Account>) {
    && q.pendingCancel && !q.pendingPost
    && (q.order.Some? ==> q.order.value.id == id)
    && (q.order.None? ==>
          && q.lastCleared.Some? && q.lastCleared.value.id == id && id < |accounts|
          && accounts[id].side == x
          && q.lastCleared.value.sizeFilled == accounts[id].recorded == accounts[id].size)
  }

  /** An accepted post whose feedback is still under way. */
  ghost predicate Unannounced(x: Side, f: Feedback, accounts: seq<Account>)
    requires f.OrderPosted?
  {
    && f.id < |accounts|
    && accounts[f.id].side == x && accounts[f.id].price == f.price
    && accounts[f.id].size == f.size && accounts[f.id].recorded == 0.0
    && (f.alreadyFilled ==> accounts[f.id].matched == f.size)
  }

  /** The one outstanding operation of a side fits its flags. */
  ghost predicate OpFits(x: Side, q: SideQuote, op: Op, accounts: seq<Account>) {
    match op
    case Sent(PostOrder(_, _, size)) => AwaitsPost(q) && size >= 0.0
    case Sent(CancelOrder(_, id)) => AwaitsCancel(x, q, id, accounts)
    case Answered(OrderPosted(side, id, price, size, filled)) =>
      AwaitsPost(q) && Unannounced(x, op.reply, accounts)
    case Answered(OrderFailed(_)) => AwaitsPost(q)
    case Answered(CancelResult(_, id, reported)) =>
      && AwaitsCancel(x, q, id, accounts)
      && (reported.Some? && id < |accounts| ==> reported.value <= accounts[id].matched)
    case _ => false
  }

  ghost predicate SideInv(x: Side, q: SideQuote, flight: seq<Op>, accounts: seq<Account>) {
    && (q.order.Some? ==>
          var o := q.order.value;
          && !q.pendingPost
          && Agrees(x, o.id, o.price, o.size, o.sizeFilled, accounts)
          && o.sizeFilled < o.size)
    && |flight| <= 1
    && (flight == [] ==> !q.pendingPost && !q.pendingCancel)
    && (|flight| == 1 ==> OpFits(x, q, flight[0], accounts))
  }

  ghost predicate TakerInv(pendingRebalance: bool, flight: seq<Op>) {
    && |flight| <= 1
    && (pendingRebalance <==> |flight| == 1)
    && (|flight| == 1 && flight[0].Sent? ==> flight[0].command.RebalanceTaker?)
    && (|flight| == 1 && flight[0].Answered? ==> flight[0].reply.RebalanceResult?)
  }

  /** No order is booked beyond what the exchange matched, nor matched beyond its size. */
  ghost predicate AccountsInv(accounts: seq<Account>) {
    forall i :: 0 <= i < |accounts| ==>
      && 0.0 < accounts[i].size
      && 0.0 <= accounts[i].recorded <= accounts[i].matched <= accounts[i].size
  }

  /** What the engine has booked, what the exchange has matched, and what it can have matched in the end. */
  datatype Column = Recorded | Matched | Matchable

  /** The most that will ever be matched of an order. */
  function Limit(a: Account): real {
    if a.live then a.size else a.matched
  }

  function Entry(a: Account, x: Side, col: Column): real {
    if a.side != x then 0.0
    else
      match col
      case Recorded => a.recorded
      case Matched => a.matched
      case Matchable => Limit(a)
  }

  /** Sum of a column over one side's orders. */
  ghost function Total(accounts: seq<Account>, x: Side, col: Column): real {
    if accounts == [] then 0.0
    else Total(accounts[..|accounts| - 1], x, col) + Entry(accounts[|accounts| - 1], x, col)
  }

  /** The position is exactly what was booked for the orders of the side, plus the rebalances. */
  ghost predicate Conserved(s: System, x: Side) {
    s.engine.Shares(x) == Total(s.accounts, x, Recorded) + s.TakerShares(x)
  }

  ghost predicate Inv(s: System) {
    && AccountsInv(s.accounts)
    && (forall x :: SideInv(x, s.engine.quoter.At(x), Flight(s, Maker(x)), s.accounts))
    && TakerInv(s.engine.pendingRebalance, Flight(s, Taker))
    && (forall x :: Conserved(s, x))
  }

  // ── Sums ──

  lemma {:induction false} TotalUpdate(accounts: seq<Account>, i: nat, a: Account, x: Side, col: Column)
    requires i < |accounts|
    ensures Total(accounts[i := a], x, col)
         == Total(accounts, x, col) - Entry(accounts[i], x, col) + Entry(a, x, col)
  {
    var n := |accounts| - 1;
    var updated := accounts[i := a];
    if i == n {
      assert updated[..n] == accounts[..n];
    } else {
      assert updated[..n] == accounts[..n][i := a];
      TotalUpdate(accounts[..n], i, a, x, col);
    }
  }

  lemma TotalAppend(accounts: seq<Account>, a: Account, x: Side, col: Column)
    ensures Total(accounts + [a], x, col) == Total(accounts, x, col) + Entry(a, x, col)
  {
    assert (accounts + [a])[..|accounts|] == accounts;
  }

  // ── Frames ──

  /** From one side's point of view the accounts have only grown: its own orders keep their terms and what is
      booked for them, may be matched further, and other orders may do anything. */
  ghost predicate Grown(x: Side, a: seq<Account>, b: seq<Account>) {
    && |a| <= |b|
    && forall i :: 0 <= i < |a| ==>
         && b[i].side == a[i].side && b[i].size == a[i].size && b[i].price == a[i].price
         && (a[i].side == x ==> b[i].recorded == a[i].recorded && a[i].matched <= b[i].matched <= b[i].size)
  }

  lemma SideInvFrame(x: Side, q: SideQuote, flight: seq<Op>, a: seq<Account>, b: seq<Account>)
    requires AccountsInv(a) && SideInv(x, q, flight, a) && Grown(x, a, b)
    ensures SideInv(x, q, flight, b)
  {
  }

  /** Only `id`'s booking changed. */
  lemma CreditGrows(y: Side, accounts: seq<Account>, id: OrderId, delta: real)
    requires AccountsInv(accounts)
    requires id < |accounts| ==> accounts[id].side != y || delta == 0.0
    ensures Grown(y, accounts, Credit(accounts, id, delta))
  {
  }

  // ── Engine steps on one side ──

  /** Booking `delta` shares for `id`, and the same on the position, keeps the books balanced. */
  lemma CreditConserves(accounts: seq<Account>, id: OrderId, delta: real, x: Side)
    requires id < |accounts|
    ensures Total(Credit(accounts, id, delta), x, Recorded)
         == Total(accounts, x, Recorded) + if accounts[id].side == x then delta else 0.0
  {
    TotalUpdate(accounts, id, accounts[id].(recorded := accounts[id].recorded + delta), x, Recorded);
  }

  lemma CreditZero(accounts: seq<Account>, id: OrderId)
    ensures Credit(accounts, id, 0.0) == accounts
  {
  }

  /** A side after a cumulative report on its order. */
  function Reported(q: SideQuote, cumulative: real): SideQuote
    requires q.order.Some?
  {
    if q.WsDelta(cumulative) <= 0.0 then q else q.WsRecorded(cumulative).Filled(cumulative >= q.order.value.size)
  }

  lemma ReportedFits(x: Side, q: SideQuote, flight: seq<Op>, accounts: seq<Account>, cumulative: real)
    requires AccountsInv(accounts) && SideInv(x, q, flight, accounts)
    requires q.order.Some? && cumulative <= accounts[q.order.value.id].matched
    ensures var after := Credit(accounts, q.order.value.id, q.WsDelta(cumulative));
            AccountsInv(after) && SideInv(x, Reported(q, cumulative), flight, after)
  {
    var o := q.order.value;
    var delta := q.WsDelta(cumulative);
    var after := Credit(accounts, o.id, delta);
    assert after[o.id].recorded == Max(o.sizeFilled, cumulative);
  }

  /** What a user update does to the engine: one side at most, and only its position and quote. */
  lemma UserUpdateEffect(e: EngineState, id: OrderId, isMatch: bool, size: Option<real>)
    ensures var f := OnTradeStatus(e, id, isMatch, size);
            && f.pending == e.pending && f.pendingRebalance == e.pendingRebalance
            && (MatchedSide(e.quoter, id).None? || !isMatch || size.None? || size.value <= 0.0 ==> f == e)
            && (f != e ==>
                  var x := MatchedSide(e.quoter, id).value;
                  var q := e.quoter.At(x);
                  && q.order.Some? && q.order.value.id == id
                  && f.quoter.At(x) == Reported(q, size.value)
                  && f.quoter.At(Other(x)) == e.quoter.At(Other(x))
                  && f.Shares(x) == e.Shares(x) + q.WsDelta(size.value)
                  && f.Shares(Other(x)) == e.Shares(Other(x)))
  {
  }

  /** A step that books `delta` shares for one order of side `x` and leaves the other side alone. */
  ghost predicate BooksFor(s: System, t: System, x: Side, id: OrderId, delta: real) {
    && id < |s.accounts| && s.accounts[id].side == x
    && t.accounts == Credit(s.accounts, id, delta)
    && t.takerYes == s.takerYes && t.takerNo == s.takerNo
    && t.engine.Shares(x) == s.engine.Shares(x) + delta
    && t.engine.Shares(Other(x)) == s.engine.Shares(Other(x))
    && t.engine.quoter.At(Other(x)) == s.engine.quoter.At(Other(x))
    && t.engine.pendingRebalance == s.engine.pendingRebalance
    && Flight(t, Maker(Other(x))) == Flight(s, Maker(Other(x)))
    && Flight(t, Taker) == Flight(s, Taker)
  }

  lemma BookingKeepsInv(s: System, t: System, x: Side, id: OrderId, delta: real)
    requires Inv(s) && BooksFor(s, t, x, id, delta)
    requires AccountsInv(t.accounts)
    requires SideInv(x, t.engine.quoter.At(x), Flight(t, Maker(x)), t.accounts)
    ensures Inv(t)
  {
    var y := Other(x);
    assert SideInv(y, s.engine.quoter.At(y), Flight(s, Maker(y)), s.accounts);
    assert Conserved(s, x) && Conserved(s, y);
    CreditGrows(y, s.accounts, id, delta);
    SideInvFrame(y, s.engine.quoter.At(y), Flight(s, Maker(y)), s.accounts, t.accounts);
    CreditConserves(s.accounts, id, delta, x);
    CreditConserves(s.accounts, id, delta, y);
    BothSides(t, x);
  }

  /** Order `id` of side `x`, `cumulative` shares of which the user channel has reported. */
  ghost predicate UpdatesOrder(s: System, t: System, x: Side, id: OrderId, cumulative: real) {
    var q := s.engine.quoter.At(x);
    && q.order.Some? && q.order.value.id == id
    && t.engine.quoter.At(x) == Reported(q, cumulative)
    && t.engine.quoter.At(Other(x)) == s.engine.quoter.At(Other(x))
    && t.engine.Shares(x) == s.engine.Shares(x) + q.WsDelta(cumulative)
    && t.engine.Shares(Other(x)) == s.engine.Shares(Other(x))
    && t.accounts == Credit(s.accounts, id, q.WsDelta(cumulative))
    && t.engine.pendingRebalance == s.engine.pendingRebalance
    && t.takerYes == s.takerYes && t.takerNo == s.takerNo
    && t.feedback == s.feedback && t.commands == s.commands && t.engine.pending == s.engine.pending
  }

  /** A user update changes nothing, or updates the order it names. */
  lemma UpdateOutcome(s: System, id: OrderId, isMatch: bool, size: Option<real>)
    ensures var t := UpdateStep(s, id, isMatch, size);
            t != s ==> && size.Some? && MatchedSide(s.engine.quoter, id).Some?
                       && UpdatesOrder(s, t, MatchedSide(s.engine.quoter, id).value, id, size.value)
  {
    UserUpdateEffect(s.engine, id, isMatch, size);
    UpdateParts(s, id, isMatch, size, OnTradeStatus(s.engine, id, isMatch, size));
  }

  /** The parts of an update, with the engine's reaction kept abstract. */
  lemma UpdateParts(s: System, id: OrderId, isMatch: bool, size: Option<real>, f: EngineState)
    requires f == OnTradeStatus(s.engine, id, isMatch, size)
    ensures var t := UpdateStep(s, id, isMatch, size);
            && t == s.(engine := f, accounts := Credit(s.accounts, id, AllShares(f) - AllShares(s.engine)))
            && (f == s.engine ==> t == s)
  {
    CreditZero(s.accounts, id);
  }

  /** The user channel books exactly the part of its cumulative report that was not booked before. */
  lemma UpdateKeepsInv(s: System, id: OrderId, isMatch: bool, size: Option<real>)
    requires Inv(s) && TruthfulUpdate(s, id, size)
    ensures Inv(UpdateStep(s, id, isMatch, size))
  {
    UpdateOutcome(s, id, isMatch, size);
    var t := UpdateStep(s, id, isMatch, size);
    if t != s {
      UpdatingKeepsInv(s, t, MatchedSide(s.engine.quoter, id).value, id, size.value);
    }
  }

  lemma UpdatingKeepsInv(s: System, t: System, x: Side, id: OrderId, cumulative: real)
    requires Inv(s) && TruthfulUpdate(s, id, Some(cumulative)) && UpdatesOrder(s, t, x, id, cumulative)
    ensures Inv(t)
  {
    var q := s.engine.quoter.At(x);
    FlightSame(s, t);
    assert SideInv(x, q, Flight(s, Maker(x)), s.accounts);
    ReportedFits(x, q, Flight(s, Maker(x)), s.accounts, cumulative);
    BookingKeepsInv(s, t, x, id, q.WsDelta(cumulative));
  }

  /** Two sides are all sides. */
  lemma BothSides(t: System, x: Side)
    requires AccountsInv(t.accounts)
    requires SideInv(x, t.engine.quoter.At(x), Flight(t, Maker(x)), t.accounts) && Conserved(t, x)
    requires SideInv(Other(x), t.engine.quoter.At(Other(x)), Flight(t, Maker(Other(x))), t.accounts)
    requires Conserved(t, Other(x))
    requires TakerInv(t.engine.pendingRebalance, Flight(t, Taker))
    ensures Inv(t)
  {
    forall y ensures SideInv(y, t.engine.quoter.At(y), Flight(t, Maker(y)), t.accounts) && Conserved(t, y) {
      assert y == x || y == Other(x);
    }
  }

  /** A step that leaves both makers alone. */
  lemma MakersUntouched(s: System, t: System, x: Side)
    requires Inv(s) && t.accounts == s.accounts && t.engine.quoter == s.engine.quoter
    requires forall z :: Flight(t, Maker(z)) == Flight(s, Maker(z))
    requires TakerInv(t.engine.pendingRebalance, Flight(t, Taker))
    requires Conserved(t, x) && Conserved(t, Other(x))
    ensures Inv(t)
  {
    var y := Other(x);
    assert SideInv(x, s.engine.quoter.At(x), Flight(s, Maker(x)), s.accounts);
    assert SideInv(y, s.engine.quoter.At(y), Flight(s, Maker(y)), s.accounts);
    BothSides(t, x);
  }

  /** Nothing was sent, answered or consumed. */
  lemma FlightSame(s: System, t: System)
    requires t.feedback == s.feedback && t.commands == s.commands && t.engine.pending == s.engine.pending
    ensures forall slot :: Flight(t, slot) == Flight(s, slot)
  {
  }

  // ── Feedback ──

  /** Consuming a feedback message takes it out of its own slot and leaves every other slot alone. */
  lemma FlightDelivered(s: System, t: System)
    requires s.feedback != [] && t.feedback == s.feedback[1..]
    requires t.commands == s.commands && t.engine.pending == s.engine.pending
    ensures Flight(s, ReplySlot(s.feedback[0])) == [Answered(s.feedback[0])] + Flight(t, ReplySlot(s.feedback[0]))
    ensures forall slot :: slot != ReplySlot(s.feedback[0]) ==> Flight(t, slot) == Flight(s, slot)
  {
  }

  /** Shares a cancel result adds to what was booked before. */
  function CancelDelta(q: SideQuote, id: OrderId, reported: Option<real>): real {
    if reported.None? || reported.value <= 0.0 || q.Lookup(id).None? then 0.0
    else Max(reported.value - q.Lookup(id).value.1, 0.0)
  }

  /** What consuming a maker feedback message does: `delta` shares are booked for the order it names. */
  ghost predicate Consumes(s: System, t: System, fb: Feedback, delta: real)
    requires s.feedback != [] && !fb.RebalanceResult?
  {
    var x, y := fb.side, Other(fb.side);
    && t.feedback == s.feedback[1..] && t.commands == s.commands && t.engine.pending == s.engine.pending
    && t.engine.pendingRebalance == s.engine.pendingRebalance
    && t.engine.quoter.At(y) == s.engine.quoter.At(y)
    && t.engine.Shares(x) == s.engine.Shares(x) + delta
    && t.engine.Shares(y) == s.engine.Shares(y)
    && t.takerYes == s.takerYes && t.takerNo == s.takerNo
    && t.accounts == (if fb.OrderFailed? then s.accounts else Credit(s.accounts, fb.id, delta))
  }

  /** Shares that a maker feedback message reports and that were not booked before. */
  function NewShares(q: SideQuote, fb: Feedback): real
    requires !fb.RebalanceResult?
  {
    match fb
    case OrderPosted(_, _, _, size, filled) => if filled then size else 0.0
    case OrderFailed(_) => 0.0
    case CancelResult(_, id, reported) => CancelDelta(q, id, reported)
  }

  /** The engine's reaction to a maker feedback message that books `delta` shares. */
  ghost predicate Reacts(e: EngineState, f: EngineState, x: Side, delta: real) {
    && f.pending == e.pending && f.pendingRebalance == e.pendingRebalance
    && f.quoter.At(Other(x)) == e.quoter.At(Other(x))
    && f.Shares(Other(x)) == e.Shares(Other(x))
    && f.Shares(x) == e.Shares(x) + delta
  }

  lemma FailedBooks(e: EngineState, fb: Feedback, fvYes: real)
    requires fb.OrderFailed?
    ensures Reacts(e, OnFeedback(e, fb, fvYes), fb.side, 0.0)
  {
  }

  lemma PostedBooks(e: EngineState, fb: Feedback, fvYes: real)
    requires fb.OrderPosted?
    ensures Reacts(e, OnFeedback(e, fb, fvYes), fb.side, if fb.alreadyFilled then fb.size else 0.0)
  {
  }

  lemma CancelledBooks(e: EngineState, fb: Feedback, fvYes: real)
    requires fb.CancelResult?
    ensures Reacts(e, OnFeedback(e, fb, fvYes), fb.side, CancelDelta(e.quoter.At(fb.side), fb.id, fb.sizeMatched))
  {
  }

  lemma FeedbackBooks(e: EngineState, fb: Feedback, fvYes: real)
    requires !fb.RebalanceResult?
    ensures Reacts(e, OnFeedback(e, fb, fvYes), fb.side, NewShares(e.quoter.At(fb.side), fb))
  {
    match fb
    case OrderFailed(_) => FailedBooks(e, fb, fvYes);
    case OrderPosted(_, _, _, _, _) => PostedBooks(e, fb, fvYes);
    case CancelResult(_, _, _) => CancelledBooks(e, fb, fvYes);
  }

  lemma ReactingBooksOnOneSide(e: EngineState, f: EngineState, x: Side, delta: real)
    requires Reacts(e, f, x, delta)
    ensures AllShares(f) - AllShares(e) == delta
  {
  }

  /** The parts of a delivery, with the engine's reaction kept abstract. */
  lemma DeliverParts(s: System, fvYes: real, f: EngineState)
    requires s.feedback != [] && !s.feedback[0].RebalanceResult?
    requires f == OnFeedback(s.engine, s.feedback[0], fvYes)
    ensures var t, fb := DeliverStep(s, fvYes), s.feedback[0];
            && t.engine == f
            && t.feedback == s.feedback[1..] && t.commands == s.commands
            && t.takerYes == s.takerYes && t.takerNo == s.takerNo
            && t.accounts == (if fb.OrderFailed? then s.accounts
                              else Credit(s.accounts, fb.id, AllShares(f) - AllShares(s.engine)))
  {
  }

  lemma DeliverConsumes(s: System, fvYes: real)
    requires s.feedback != [] && !s.feedback[0].RebalanceResult?
    ensures var fb := s.feedback[0];
            Consumes(s, DeliverStep(s, fvYes), fb, NewShares(s.engine.quoter.At(fb.side), fb))
  {
    var fb, f := s.feedback[0], OnFeedback(s.engine, s.feedback[0], fvYes);
    FeedbackBooks(s.engine, fb, fvYes);
    ReactingBooksOnOneSide(s.engine, f, fb.side, NewShares(s.engine.quoter.At(fb.side), fb));
    DeliverParts(s, fvYes, f);
  }

  lemma DeliverQuote(s: System, fvYes: real) returns (fv: real, ask: real)
    requires s.feedback != [] && !s.feedback[0].RebalanceResult?
    ensures var fb := s.feedback[0];
            var q := s.engine.quoter.At(fb.side);
            var r := DeliverStep(s, fvYes).engine.quoter.At(fb.side);
            && (fb.OrderFailed? || (fb.OrderPosted? && fb.alreadyFilled) ==> r == q.PostFailed())
            && (fb.OrderPosted? && !fb.alreadyFilled ==>
                  r == q.Posted(ManagedOrder(fb.id, fb.price, fb.size, fv, ask, 0.0)))
            && (fb.CancelResult? ==> r == q.CancelDone())
  {
    var fb := s.feedback[0];
    fv, ask := FairValue(fvYes, fb.side), BestAskOrOne(s.engine.BookOf(fb.side));
  }

  lemma PostedFits(x: Side, q: SideQuote, fb: Feedback, accounts: seq<Account>, fv: real, ask: real)
    requires AccountsInv(accounts) && fb.OrderPosted?
    requires SideInv(x, q, [Answered(fb)], accounts)
    ensures !fb.alreadyFilled ==>
              SideInv(x, q.Posted(ManagedOrder(fb.id, fb.price, fb.size, fv, ask, 0.0)), [], accounts)
    ensures fb.alreadyFilled ==>
              var after := Credit(accounts, fb.id, fb.size);
              AccountsInv(after) && SideInv(x, q.PostFailed(), [], after)
  {
    assert OpFits(x, q, [Answered(fb)][0], accounts);
  }

  lemma CancelledFits(x: Side, q: SideQuote, fb: Feedback, accounts: seq<Account>)
    requires AccountsInv(accounts) && fb.CancelResult?
    requires SideInv(x, q, [Answered(fb)], accounts)
    ensures fb.id < |accounts| && accounts[fb.id].side == x
    ensures var after := Credit(accounts, fb.id, CancelDelta(q, fb.id, fb.sizeMatched));
            && AccountsInv(after) && SideInv(x, q.CancelDone(), [], after)
            && after[fb.id].recorded
               == if fb.sizeMatched.None? then accounts[fb.id].recorded
                  else Max(accounts[fb.id].recorded, fb.sizeMatched.value)
  {
    assert OpFits(x, q, [Answered(fb)][0], accounts);
  }

  lemma FailedKeepsInv(s: System, t: System, fb: Feedback)
    requires Inv(s) && s.feedback != [] && fb == s.feedback[0] && fb.OrderFailed?
    requires Consumes(s, t, fb, 0.0)
    requires t.engine.quoter.At(fb.side) == s.engine.quoter.At(fb.side).PostFailed()
    ensures Inv(t)
  {
    var x, y := fb.side, Other(fb.side);
    FlightDelivered(s, t);
    assert SideInv(x, s.engine.quoter.At(x), [Answered(fb)], s.accounts) && Flight(t, Maker(x)) == [];
    assert OpFits(x, s.engine.quoter.At(x), [Answered(fb)][0], s.accounts);
    assert SideInv(y, s.engine.quoter.At(y), Flight(s, Maker(y)), s.accounts);
    assert Conserved(s, x) && Conserved(s, y);
    BothSides(t, x);
  }

  lemma PostedKeepsInv(s: System, t: System, fb: Feedback, fv: real, ask: real)
    requires Inv(s) && s.feedback != [] && fb == s.feedback[0] && fb.OrderPosted?
    requires Consumes(s, t, fb, if fb.alreadyFilled then fb.size else 0.0)
    requires t.engine.quoter.At(fb.side)
          == if fb.alreadyFilled then s.engine.quoter.At(fb.side).PostFailed()
             else s.engine.quoter.At(fb.side).Posted(ManagedOrder(fb.id, fb.price, fb.size, fv, ask, 0.0))
    ensures Inv(t)
  {
    var x := fb.side;
    FlightDelivered(s, t);
    assert SideInv(x, s.engine.quoter.At(x), [Answered(fb)], s.accounts) && Flight(t, Maker(x)) == [];
    assert OpFits(x, s.engine.quoter.At(x), [Answered(fb)][0], s.accounts);
    PostedFits(x, s.engine.quoter.At(x), fb, s.accounts, fv, ask);
    CreditZero(s.accounts, fb.id);
    BookingKeepsInv(s, t, x, fb.id, if fb.alreadyFilled then fb.size else 0.0);
  }

  lemma CancelledKeepsInv(s: System, t: System, fb: Feedback)
    requires Inv(s) && s.feedback != [] && fb == s.feedback[0] && fb.CancelResult?
    requires Consumes(s, t, fb, CancelDelta(s.engine.quoter.At(fb.side), fb.id, fb.sizeMatched))
    requires t.engine.quoter.At(fb.side) == s.engine.quoter.At(fb.side).CancelDone()
    ensures Inv(t)
  {
    var x := fb.side;
    FlightDelivered(s, t);
    assert SideInv(x, s.engine.quoter.At(x), [Answered(fb)], s.accounts) && Flight(t, Maker(x)) == [];
    CancelledFits(x, s.engine.quoter.At(x), fb, s.accounts);
    BookingKeepsInv(s, t, x, fb.id, CancelDelta(s.engine.quoter.At(x), fb.id, fb.sizeMatched));
  }

  lemma MakerFeedbackKeepsInv(s: System, fvYes: real)
    requires Inv(s) && s.feedback != [] && !s.feedback[0].RebalanceResult?
    ensures Inv(DeliverStep(s, fvYes))
  {
    var t, fb := DeliverStep(s, fvYes), s.feedback[0];
    DeliverConsumes(s, fvYes);
    var fv, ask := DeliverQuote(s, fvYes);
    match fb
    case OrderFailed(_) => FailedKeepsInv(s, t, fb);
    case OrderPosted(_, _, _, _, _) => PostedKeepsInv(s, t, fb, fv, ask);
    case CancelResult(_, _, _) => CancelledKeepsInv(s, t, fb);
  }

  /** Shares a rebalance result books. */
  function TakenShares(fb: Feedback): real
    requires fb.RebalanceResult?
  {
    if fb.filled && fb.taken > 0.0 then fb.taken else 0.0
  }

  /** What consuming a rebalance result does. */
  ghost predicate ConsumesTaken(s: System, t: System, fb: Feedback)
    requires s.feedback != [] && fb.RebalanceResult?
  {
    var x, y := fb.side, Other(fb.side);
    && t.feedback == s.feedback[1..] && t.commands == s.commands && t.engine.pending == s.engine.pending
    && !t.engine.pendingRebalance
    && t.engine.quoter == s.engine.quoter && t.accounts == s.accounts
    && t.engine.Shares(x) == s.engine.Shares(x) + TakenShares(fb)
    && t.TakerShares(x) == s.TakerShares(x) + TakenShares(fb)
    && t.engine.Shares(y) == s.engine.Shares(y) && t.TakerShares(y) == s.TakerShares(y)
  }

  lemma DeliverConsumesTaken(s: System, fvYes: real)
    requires s.feedback != [] && s.feedback[0].RebalanceResult?
    ensures ConsumesTaken(s, DeliverStep(s, fvYes), s.feedback[0])
  {
  }

  lemma TakenKeepsInv(s: System, t: System, fb: Feedback)
    requires Inv(s) && s.feedback != [] && fb == s.feedback[0] && fb.RebalanceResult?
    requires ConsumesTaken(s, t, fb)
    ensures Inv(t)
  {
    var x, y := fb.side, Other(fb.side);
    FlightDelivered(s, t);
    assert Conserved(s, x) && Conserved(s, y);
    assert Flight(s, Taker) == [Answered(fb)] + Flight(t, Taker);
    assert Conserved(t, x) && Conserved(t, y);
    MakersUntouched(s, t, x);
  }

  lemma DeliverKeepsInv(s: System, fvYes: real)
    requires Inv(s) && s.feedback != []
    ensures Inv(DeliverStep(s, fvYes))
  {
    if s.feedback[0].RebalanceResult? {
      DeliverConsumesTaken(s, fvYes);
      TakenKeepsInv(s, DeliverStep(s, fvYes), s.feedback[0]);
    } else {
      MakerFeedbackKeepsInv(s, fvYes);
    }
  }

  // ── The exchange and the executor ──

  /** Changes of the accounts that book nothing. */
  ghost predicate NothingBooked(a: seq<Account>, b: seq<Account>) {
    && AccountsInv(b)
    && forall x :: Grown(x, a, b) && Total(b, x, Recorded) == Total(a, x, Recorded)
  }

  lemma UpdateBooksNothing(a: seq<Account>, i: nat, c: Account)
    requires AccountsInv(a) && i < |a|
    requires c.side == a[i].side && c.price == a[i].price && c.size == a[i].size && c.recorded == a[i].recorded
    requires a[i].matched <= c.matched <= c.size
    ensures NothingBooked(a, a[i := c])
  {
    forall x ensures Grown(x, a, a[i := c]) && Total(a[i := c], x, Recorded) == Total(a, x, Recorded) {
      TotalUpdate(a, i, c, x, Recorded);
    }
  }

  lemma AppendBooksNothing(a: seq<Account>, c: Account)
    requires AccountsInv(a) && AccountsInv([c]) && c.recorded == 0.0
    ensures NothingBooked(a, a + [c])
  {
    assert AccountsInv(a + [c]) by {
      forall i | 0 <= i < |a + [c]|
        ensures 0.0 < (a + [c])[i].size
             && 0.0 <= (a + [c])[i].recorded <= (a + [c])[i].matched <= (a + [c])[i].size
      {
        assert (a + [c])[i] == if i < |a| then a[i] else [c][0];
      }
    }
    forall x ensures Grown(x, a, a + [c]) && Total(a + [c], x, Recorded) == Total(a, x, Recorded) {
      TotalAppend(a, c, x, Recorded);
    }
  }

  lemma MatchKeepsInv(s: System, id: OrderId, amount: real)
    requires Inv(s) && MatchPossible(s, id, amount)
    ensures Inv(MatchStep(s, id, amount))
  {
    var t := MatchStep(s, id, amount);
    UpdateBooksNothing(s.accounts, id, t.accounts[id]);
    FlightSame(s, t);
    forall x ensures SideInv(x, t.engine.quoter.At(x), Flight(t, Maker(x)), t.accounts) && Conserved(t, x) {
      assert SideInv(x, s.engine.quoter.At(x), Flight(s, Maker(x)), s.accounts) && Conserved(s, x);
      SideInvFrame(x, s.engine.quoter.At(x), Flight(s, Maker(x)), s.accounts, t.accounts);
    }
  }

  /** Answering the oldest command replaces it, in its slot, by the answer. */
  ghost predicate Answers(s: System, t: System, f: Feedback) {
    && s.commands != [] && t.commands == s.commands[1..] && t.feedback == s.feedback + [f]
    && t.engine == s.engine && t.takerYes == s.takerYes && t.takerNo == s.takerNo
    && ReplySlot(f) == CommandSlot(s.commands[0])
  }

  lemma FlightAnswered(s: System, t: System, f: Feedback)
    requires Answers(s, t, f)
    requires |Flight(s, ReplySlot(f))| <= 1
    ensures Flight(s, ReplySlot(f)) == [Sent(s.commands[0])] && Flight(t, ReplySlot(f)) == [Answered(f)]
    ensures forall slot :: slot != ReplySlot(f) ==> Flight(t, slot) == Flight(s, slot)
  {
    var slot := ReplySlot(f);
    forall other: Slot
      ensures RepliesOf(t.feedback, other)
           == RepliesOf(s.feedback, other) + (if other == slot then [Answered(f)] else [])
    {
      RepliesOfConcat(s.feedback, [f], other);
      assert [f][1..] == [];
      assert RepliesOf([f], other) == if other == slot then [Answered(f)] else [];
    }
    forall other: Slot | other != slot ensures Flight(t, other) == Flight(s, other) {
      assert CommandsOf(s.commands, other) == CommandsOf(t.commands, other);
    }
    assert CommandsOf(s.commands, slot) == [Sent(s.commands[0])] + CommandsOf(t.commands, slot);
  }

  lemma AnsweredFits(x: Side, q: SideQuote, c: Command, f: Feedback, a: seq<Account>, b: seq<Account>)
    requires AccountsInv(a) && SideInv(x, q, [Sent(c)], a) && Grown(x, a, b)
    requires OpFits(x, q, Sent(c), a) ==> OpFits(x, q, Answered(f), b)
    ensures SideInv(x, q, [Answered(f)], b)
  {
    assert OpFits(x, q, [Sent(c)][0], a);
  }

  /** Accounts changed without a booking keep the books balanced. */
  lemma StillConserved(s: System, t: System, x: Side)
    requires Conserved(s, x) && NothingBooked(s.accounts, t.accounts)
    requires t.engine == s.engine && t.takerYes == s.takerYes && t.takerNo == s.takerNo
    ensures Conserved(t, x)
  {
  }

  lemma AnswerKeepsInv(s: System, t: System, f: Feedback, x: Side)
    requires Inv(s) && Answers(s, t, f) && ReplySlot(f) == Maker(x)
    requires NothingBooked(s.accounts, t.accounts)
    requires OpFits(x, s.engine.quoter.At(x), Sent(s.commands[0]), s.accounts) ==>
               OpFits(x, s.engine.quoter.At(x), Answered(f), t.accounts)
    ensures Inv(t)
  {
    var y := Other(x);
    assert SideInv(x, s.engine.quoter.At(x), Flight(s, Maker(x)), s.accounts) && Conserved(s, x);
    assert SideInv(y, s.engine.quoter.At(y), Flight(s, Maker(y)), s.accounts) && Conserved(s, y);
    FlightAnswered(s, t, f);
    SideInvFrame(y, s.engine.quoter.At(y), Flight(s, Maker(y)), s.accounts, t.accounts);
    AnsweredFits(x, s.engine.quoter.At(x), s.commands[0], f, s.accounts, t.accounts);
    StillConserved(s, t, x);
    StillConserved(s, t, y);
    BothSides(t, x);
  }

  lemma PostAnswerFits(u: Setup, s: System, r: PostResponse)
    requires AccountsInv(s.accounts) && Enabled(u, s, ExecPost(r))
    ensures var t, c := PostStep(s, r), s.commands[0];
            var f := ReplyToPost(s.cachesWarm, c.side, c.price, c.size, r);
            && Answers(s, t, f) && NothingBooked(s.accounts, t.accounts)
            && forall q :: OpFits(c.side, q, Sent(c), s.accounts) ==> OpFits(c.side, q, Answered(f), t.accounts)
  {
    var t, c := PostStep(s, r), s.commands[0];
    var f := ReplyToPost(s.cachesWarm, c.side, c.price, c.size, r);
    if f.OrderFailed? {
      assert forall x :: Grown(x, s.accounts, s.accounts);
    } else {
      AppendBooksNothing(s.accounts, t.accounts[|s.accounts|]);
      assert f.id == |s.accounts|;
    }
  }

  lemma PostKeepsInv(u: Setup, s: System, r: PostResponse)
    requires Inv(s) && Enabled(u, s, ExecPost(r))
    ensures Inv(PostStep(s, r))
  {
    var c := s.commands[0];
    PostAnswerFits(u, s, r);
    AnswerKeepsInv(s, PostStep(s, r), ReplyToPost(s.cachesWarm, c.side, c.price, c.size, r), c.side);
  }

  lemma CancelKeepsInv(u: Setup, s: System, stillLive: bool, reported: Option<real>)
    requires Inv(s) && Enabled(u, s, ExecCancel(stillLive, reported))
    ensures Inv(CancelStep(s, stillLive, reported))
  {
    var t, c := CancelStep(s, stillLive, reported), s.commands[0];
    if c.id < |s.accounts| && !stillLive {
      UpdateBooksNothing(s.accounts, c.id, s.accounts[c.id].(live := false));
    } else {
      assert forall x :: Grown(x, s.accounts, s.accounts);
    }
    AnswerKeepsInv(s, t, ReplyToCancel(c.side, c.id, reported), c.side);
  }

  lemma TakerAnswerKeepsInv(s: System, t: System, f: Feedback)
    requires Inv(s) && Answers(s, t, f) && f.RebalanceResult? && t.accounts == s.accounts
    ensures Inv(t)
  {
    FlightAnswered(s, t, f);
    assert Conserved(s, Yes) && Conserved(s, No);
    MakersUntouched(s, t, Yes);
  }

  lemma RebalanceKeepsInv(u: Setup, s: System, r: TakerResponse)
    requires Inv(s) && Enabled(u, s, ExecRebalance(r))
    ensures Inv(RebalanceStep(u, s, r))
  {
    var c := s.commands[0];
    TakerAnswerKeepsInv(s, RebalanceStep(u, s, r), ReplyToRebalance(s.cachesWarm, c.side, c.price, c.size, u.scale, r));
  }

  // ── Steps of the engine that send commands ──

  /** The engine sends `now` to the executor and `later` to its own buffer. */
  ghost predicate Sends(s: System, t: System, now: seq<Command>, later: seq<Command>) {
    && t.feedback == s.feedback && t.accounts == s.accounts
    && t.takerYes == s.takerYes && t.takerNo == s.takerNo
    && t.engine.position == s.engine.position
    && t.commands == s.commands + now && t.engine.pending == s.engine.pending + later
  }

  lemma FlightSent(s: System, t: System, now: seq<Command>, later: seq<Command>, slot: Slot)
    requires Sends(s, t, now, later)
    requires CommandsOf(now, slot) + CommandsOf(later, slot) == [] || Flight(s, slot) == []
    ensures Flight(t, slot) == Flight(s, slot) + (CommandsOf(now, slot) + CommandsOf(later, slot))
  {
    CommandsOfConcat(s.commands, now, slot);
    CommandsOfConcat(s.engine.pending, later, slot);
    SentBehind(RepliesOf(s.feedback, slot), CommandsOf(s.commands, slot), CommandsOf(s.engine.pending, slot),
               CommandsOf(now, slot), CommandsOf(later, slot));
  }

  /** New commands enter the channel and the buffer; with nothing under way, or nothing new, that is as good as
      entering behind everything. */
  lemma SentBehind(replies: seq<Op>, commands: seq<Op>, pending: seq<Op>, now: seq<Op>, later: seq<Op>)
    requires now + later == [] || replies + commands + pending == []
    ensures replies + (commands + now) + (pending + later) == replies + commands + pending + (now + later)
  {
    assert |now + later| == |now| + |later|;
    if now + later == [] {
      assert now == [] && later == [];
    } else {
      assert |replies + commands + pending| == |replies| + |commands| + |pending|;
      assert replies == [] && commands == [] && pending == [];
    }
  }

  /** What a sending step may do to one side: nothing; cancel its resting order when no cancel is under way; or
      announce a post when the side is idle. */
  ghost predicate SideSends(x: Side, q: SideQuote, r: SideQuote, sent: seq<Op>) {
    || (r == q && sent == [])
    || (q.order.Some? && !q.pendingCancel && r == q.CancelSent() && sent == [Sent(CancelOrder(x, q.order.value.id))])
    || (q.order.None? && !q.Pending() && r == q.MarkPost()
        && |sent| == 1 && sent[0].Sent? && sent[0].command.PostOrder? && sent[0].command.side == x
        && sent[0].command.size >= 0.0)
  }

  ghost predicate TakerSends(before: bool, after: bool, sent: seq<Op>) {
    || (after == before && sent == [])
    || (!before && after && |sent| == 1 && sent[0].Sent? && sent[0].command.RebalanceTaker?)
  }

  lemma SideSendsFits(x: Side, q: SideQuote, r: SideQuote, sent: seq<Op>, flight: seq<Op>, accounts: seq<Account>)
    requires SideInv(x, q, flight, accounts) && SideSends(x, q, r, sent)
    ensures sent == [] || flight == []
    ensures SideInv(x, r, flight + sent, accounts)
  {
    if r == q && sent == [] {
      assert flight + sent == flight;
    } else {
      assert flight == [];
      assert flight + sent == sent;
    }
  }

  /** A side's operations after a sending step. */
  lemma SideFlightSent(s: System, t: System, now: seq<Command>, later: seq<Command>, x: Side)
    requires Inv(s) && Sends(s, t, now, later)
    requires SideSends(x, s.engine.quoter.At(x), t.engine.quoter.At(x),
                       CommandsOf(now, Maker(x)) + CommandsOf(later, Maker(x)))
    ensures var sent := CommandsOf(now, Maker(x)) + CommandsOf(later, Maker(x));
            && (sent == [] || Flight(s, Maker(x)) == [])
            && Flight(t, Maker(x)) == Flight(s, Maker(x)) + sent
            && SideInv(x, t.engine.quoter.At(x), Flight(s, Maker(x)) + sent, s.accounts)
  {
    assert SideInv(x, s.engine.quoter.At(x), Flight(s, Maker(x)), s.accounts);
    SideSendsFits(x, s.engine.quoter.At(x), t.engine.quoter.At(x),
                  CommandsOf(now, Maker(x)) + CommandsOf(later, Maker(x)), Flight(s, Maker(x)), s.accounts);
    FlightSent(s, t, now, later, Maker(x));
  }

  lemma SendingKeepsSide(s: System, t: System, now: seq<Command>, later: seq<Command>, x: Side)
    requires Inv(s) && Sends(s, t, now, later)
    requires SideSends(x, s.engine.quoter.At(x), t.engine.quoter.At(x),
                       CommandsOf(now, Maker(x)) + CommandsOf(later, Maker(x)))
    ensures SideInv(x, t.engine.quoter.At(x), Flight(t, Maker(x)), t.accounts) && Conserved(t, x)
  {
    SideFlightSent(s, t, now, later, x);
    assert Conserved(s, x);
  }

  lemma SendingKeepsInv(s: System, t: System, now: seq<Command>, later: seq<Command>)
    requires Inv(s) && Sends(s, t, now, later)
    requires forall x :: SideSends(x, s.engine.quoter.At(x), t.engine.quoter.At(x),
                                   CommandsOf(now, Maker(x)) + CommandsOf(later, Maker(x)))
    requires TakerSends(s.engine.pendingRebalance, t.engine.pendingRebalance,
                        CommandsOf(now, Taker) + CommandsOf(later, Taker))
    ensures Inv(t)
  {
    SendingKeepsSide(s, t, now, later, Yes);
    SendingKeepsSide(s, t, now, later, No);
    FlightSent(s, t, now, later, Taker);
    BothSides(t, Yes);
  }
}
