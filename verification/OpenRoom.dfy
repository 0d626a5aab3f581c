/** How many shares a side can still be filled with until the next tick, and how every step but a tick spends them. */
module OpenRoom {
  import opened Common
  import opened FillEngine
  import opened Quoting
  import opened Orders
  import opened Strategy
  import opened Executor
  import opened Lifecycle
  import opened Protocol
  import opened ProtocolRuns
  import opened QuoteContract

  // ── What can still fill ──

  /** What can still be booked for an order. */
  function Unbooked(accounts: seq<Account>, id: OrderId): real {
    if id < |accounts| then Limit(accounts[id]) - accounts[id].recorded else 0.0
  }

  /** The same for the order a side rests, or is about to hear of. */
  function OrderRoom(q: SideQuote, flight: seq<Op>, accounts: seq<Account>): real {
    if q.order.Some? then Unbooked(accounts, q.order.value.id)
    else if |flight| == 1 && flight[0].Answered? && flight[0].reply.OrderPosted?
    then Unbooked(accounts, flight[0].reply.id)
    else 0.0
  }

  function PlacedSize(c: Command): real
    requires c.PostOrder?
  {
    Max(TruncateToCents(c.size), 0.0)
  }

  /** What posts of side `x` waiting for the executor can bring. It places them if it is warm by then: already, or
      after a rotation ahead of them. */
  function PostRoom(warm: bool, queue: seq<Command>, x: Side): real
    decreases |queue|
  {
    if queue == [] then 0.0
    else
      match queue[0]
      case MarketRotation => PostRoom(true, queue[1..], x)
      case PostOrder(side, _, _) =>
        (if side == x && warm then PlacedSize(queue[0]) else 0.0) + PostRoom(warm, queue[1..], x)
      case _ => PostRoom(warm, queue[1..], x)
  }

  function Queue(s: System): seq<Command> {
    s.commands + s.engine.pending
  }

  ghost function Room(s: System, x: Side): real {
    OrderRoom(s.engine.quoter.At(x), Flight(s, Maker(x)), s.accounts) + PostRoom(s.cachesWarm, Queue(s), x)
  }

  /** Shares the side can hold at most before the next tick. */
  ghost function Reach(s: System, x: Side): real {
    s.engine.Shares(x) + Room(s, x)
  }

  /** Shares that delivering the answer under way will book. */
  function Forced(q: SideQuote, flight: seq<Op>): real {
    if |flight| == 1 && flight[0].Answered? && !flight[0].reply.RebalanceResult?
    then NewShares(q, flight[0].reply)
    else 0.0
  }

  /** Shares the side holds when it has heard of everything under way, and nothing else fills. */
  ghost function Least(s: System, x: Side): real {
    s.engine.Shares(x) + Forced(s.engine.quoter.At(x), Flight(s, Maker(x)))
  }

  // ── Posts in the queue ──

  lemma {:induction false} PostRoomNonNegative(warm: bool, queue: seq<Command>, x: Side)
    ensures PostRoom(warm, queue, x) >= 0.0
    ensures PostRoom(warm, queue, x) <= PostRoom(true, queue, x)
    decreases |queue|
  {
    if queue != [] {
      PostRoomNonNegative(warm || queue[0].MarketRotation?, queue[1..], x);
    }
  }

  lemma {:induction false} NoPostNoRoom(warm: bool, queue: seq<Command>, x: Side)
    requires forall c :: c in queue && c.PostOrder? ==> c.side != x
    ensures PostRoom(warm, queue, x) == 0.0
    decreases |queue|
  {
    if queue != [] {
      assert queue[0] in queue;
      NoPostNoRoom(warm || queue[0].MarketRotation?, queue[1..], x);
    }
  }

  lemma {:induction false} CancelsInFront(warm: bool, cancels: seq<Command>, queue: seq<Command>, x: Side)
    requires forall c :: c in cancels ==> c.CancelOrder?
    ensures PostRoom(warm, cancels + queue, x) == PostRoom(warm, queue, x)
  {
    if cancels == [] {
      assert cancels + queue == queue;
    } else {
      assert cancels[0] in cancels;
      assert (cancels + queue)[0] == cancels[0] && (cancels + queue)[1..] == cancels[1..] + queue;
      CancelsInFront(warm, cancels[1..], queue, x);
    }
  }

  /** Cancels entering the queue anywhere change nothing for the posts. */
  lemma {:induction false} CancelsBetween(warm: bool, a: seq<Command>, cancels: seq<Command>, b: seq<Command>, x: Side)
    requires forall c :: c in cancels ==> c.CancelOrder?
    ensures PostRoom(warm, a + cancels + b, x) == PostRoom(warm, a + b, x)
    decreases |a|
  {
    if a == [] {
      assert a + cancels + b == cancels + b && a + b == b;
      CancelsInFront(warm, cancels, b, x);
    } else {
      assert (a + cancels + b)[0] == a[0] && (a + cancels + b)[1..] == a[1..] + cancels + b;
      assert (a + b)[0] == a[0] && (a + b)[1..] == a[1..] + b;
      CancelsBetween(warm || a[0].MarketRotation?, a[1..], cancels, b, x);
    }
  }

  lemma QueuedPostIsInFlight(s: System, c: Command)
    requires c in Queue(s) && c.PostOrder?
    ensures Sent(c) in Flight(s, Maker(c.side))
  {
    CommandsOfConcat(s.commands, s.engine.pending, Maker(c.side));
    CommandInItsSlot(Queue(s), c);
  }

  /** A side without a post under way has none in the queue. */
  lemma NoPostUnderWay(s: System, x: Side)
    requires forall op :: op in Flight(s, Maker(x)) && op.Sent? ==> !op.command.PostOrder?
    ensures PostRoom(s.cachesWarm, Queue(s), x) == 0.0
  {
    forall c | c in Queue(s) && c.PostOrder? ensures c.side != x {
      QueuedPostIsInFlight(s, c);
    }
    NoPostNoRoom(s.cachesWarm, Queue(s), x);
  }

  // ── A side that nothing happens to ──

  /** Orders of `x` keep their limits and what is booked for them. */
  ghost predicate Kept(x: Side, a: seq<Account>, b: seq<Account>) {
    && |a| <= |b|
    && forall i :: 0 <= i < |a| && a[i].side == x ==> b[i].recorded == a[i].recorded && Limit(b[i]) == Limit(a[i])
  }

  lemma OrderRoomFrame(x: Side, q: SideQuote, flight: seq<Op>, a: seq<Account>, b: seq<Account>)
    requires SideInv(x, q, flight, a) && Kept(x, a, b)
    ensures OrderRoom(q, flight, b) == OrderRoom(q, flight, a)
  {
  }

  lemma OrderRoomNonNegative(x: Side, q: SideQuote, flight: seq<Op>, accounts: seq<Account>)
    requires AccountsInv(accounts)
    ensures OrderRoom(q, flight, accounts) >= 0.0
  {
  }

  lemma RoomNonNegative(s: System, x: Side)
    requires Inv(s)
    ensures Room(s, x) >= 0.0
  {
    OrderRoomNonNegative(x, s.engine.quoter.At(x), Flight(s, Maker(x)), s.accounts);
    PostRoomNonNegative(s.cachesWarm, Queue(s), x);
  }

  /** Nothing changes for a side. */
  ghost predicate SameSide(s: System, t: System, x: Side) {
    Reach(t, x) == Reach(s, x) && Least(t, x) == Least(s, x) && t.engine.Shares(x) == s.engine.Shares(x)
  }

  lemma RoomUntouched(s: System, t: System, x: Side, q: SideQuote, flight: seq<Op>)
    requires SideInv(x, q, flight, s.accounts) && Kept(x, s.accounts, t.accounts)
    requires q == s.engine.quoter.At(x) && flight == Flight(s, Maker(x))
    requires q == t.engine.quoter.At(x) && flight == Flight(t, Maker(x))
    requires PostRoom(t.cachesWarm, Queue(t), x) == PostRoom(s.cachesWarm, Queue(s), x)
    ensures Room(t, x) == Room(s, x)
  {
    OrderRoomFrame(x, q, flight, s.accounts, t.accounts);
  }

  lemma SideUntouched(s: System, t: System, x: Side)
    requires Inv(s) && Kept(x, s.accounts, t.accounts)
    requires t.engine.quoter.At(x) == s.engine.quoter.At(x) && t.engine.Shares(x) == s.engine.Shares(x)
    requires Flight(t, Maker(x)) == Flight(s, Maker(x))
    requires PostRoom(t.cachesWarm, Queue(t), x) == PostRoom(s.cachesWarm, Queue(s), x)
    ensures SameSide(s, t, x)
  {
    assert SideInv(x, s.engine.quoter.At(x), Flight(s, Maker(x)), s.accounts);
    RoomUntouched(s, t, x, s.engine.quoter.At(x), Flight(s, Maker(x)));
    SameRoomSameSide(s, t, x);
  }

  lemma SameRoomSameSide(s: System, t: System, x: Side)
    requires t.engine.Shares(x) == s.engine.Shares(x) && Room(t, x) == Room(s, x)
    requires t.engine.quoter.At(x) == s.engine.quoter.At(x) && Flight(t, Maker(x)) == Flight(s, Maker(x))
    ensures SameSide(s, t, x)
  {
  }

  lemma CreditKeeps(y: Side, accounts: seq<Account>, id: OrderId, delta: real)
    requires id < |accounts| ==> accounts[id].side != y || delta == 0.0
    ensures Kept(y, accounts, Credit(accounts, id, delta))
  {
  }

  // ── Reports ──

  /** What a report books it takes from the room. */
  lemma ReportedRoom(x: Side, q: SideQuote, flight: seq<Op>, accounts: seq<Account>, cumulative: real)
    requires AccountsInv(accounts) && SideInv(x, q, flight, accounts)
    requires q.order.Some? && cumulative <= accounts[q.order.value.id].matched
    ensures OrderRoom(Reported(q, cumulative), flight, Credit(accounts, q.order.value.id, q.WsDelta(cumulative)))
         == OrderRoom(q, flight, accounts) - q.WsDelta(cumulative)
  {
    ReportedFits(x, q, flight, accounts, cumulative);
  }

  lemma UpdatingKeepsReach(s: System, t: System, x: Side, id: OrderId, cumulative: real)
    requires Inv(s) && TruthfulUpdate(s, id, Some(cumulative)) && UpdatesOrder(s, t, x, id, cumulative)
    requires t.cachesWarm == s.cachesWarm
    ensures Reach(t, x) == Reach(s, x) && SameSide(s, t, Other(x))
  {
    var q, y := s.engine.quoter.At(x), Other(x);
    FlightSame(s, t);
    assert SideInv(x, q, Flight(s, Maker(x)), s.accounts);
    ReportedRoom(x, q, Flight(s, Maker(x)), s.accounts, cumulative);
    CreditKeeps(y, s.accounts, id, q.WsDelta(cumulative));
    SideUntouched(s, t, y);
  }

  lemma UpdateKeepsReach(s: System, id: OrderId, isMatch: bool, size: Option<real>, x: Side)
    requires Inv(s) && TruthfulUpdate(s, id, size)
    ensures Reach(UpdateStep(s, id, isMatch, size), x) == Reach(s, x)
  {
    UpdateOutcome(s, id, isMatch, size);
    var t := UpdateStep(s, id, isMatch, size);
    if t != s {
      var z := MatchedSide(s.engine.quoter, id).value;
      UpdatingKeepsReach(s, t, z, id, size.value);
      assert x == z || x == Other(z);
    }
  }

  // ── Deliveries ──

  /** What a consumed answer books it takes from the room; a cancel result also gives up what it leaves unbooked. */
  lemma ConsumedRoom(x: Side, q: SideQuote, r: SideQuote, fb: Feedback, a: seq<Account>, b: seq<Account>)
    requires AccountsInv(a) && SideInv(x, q, [Answered(fb)], a) && !fb.RebalanceResult?
    requires fb.OrderPosted? && !fb.alreadyFilled ==> r.order.Some? && r.order.value.id == fb.id
    requires !(fb.OrderPosted? && !fb.alreadyFilled) ==> r.order.None?
    requires b == if fb.OrderFailed? then a else Credit(a, fb.id, NewShares(q, fb))
    ensures OrderRoom(r, [], b) + NewShares(q, fb) <= OrderRoom(q, [Answered(fb)], a)
    ensures NewShares(q, fb) >= 0.0
    ensures q.order.None? || OrderRoom(q, [Answered(fb)], a) == 0.0 ==>
              OrderRoom(r, [], b) + NewShares(q, fb) == OrderRoom(q, [Answered(fb)], a)
  {
    assert OpFits(x, q, [Answered(fb)][0], a);
  }

  lemma ConsumingReach(s: System, t: System, fb: Feedback)
    requires Inv(s) && s.feedback != [] && fb == s.feedback[0] && !fb.RebalanceResult?
    requires Consumes(s, t, fb, NewShares(s.engine.quoter.At(fb.side), fb)) && t.cachesWarm == s.cachesWarm
    requires var r := t.engine.quoter.At(fb.side);
             && (fb.OrderPosted? && !fb.alreadyFilled ==> r.order.Some? && r.order.value.id == fb.id)
             && (!(fb.OrderPosted? && !fb.alreadyFilled) ==> r.order.None?)
    ensures var x, q := fb.side, s.engine.quoter.At(fb.side);
            && Reach(t, x) <= Reach(s, x) && SameSide(s, t, Other(x))
            && (q.order.None? || OrderRoom(q, Flight(s, Maker(x)), s.accounts) == 0.0 ==> Reach(t, x) == Reach(s, x))
            && Least(t, x) == Least(s, x)
  {
    var x, y := fb.side, Other(fb.side);
    var q := s.engine.quoter.At(x);
    FlightDelivered(s, t);
    assert SideInv(x, q, Flight(s, Maker(x)), s.accounts);
    assert Flight(s, Maker(x)) == [Answered(fb)] && Flight(t, Maker(x)) == [];
    ConsumedRoom(x, q, t.engine.quoter.At(x), fb, s.accounts, t.accounts);
    if !fb.OrderFailed? {
      NamesItsSide(x, q, fb, s.accounts);
      CreditKeeps(y, s.accounts, fb.id, NewShares(q, fb));
    }
    SideUntouched(s, t, y);
  }

  lemma NamesItsSide(x: Side, q: SideQuote, fb: Feedback, accounts: seq<Account>)
    requires AccountsInv(accounts) && SideInv(x, q, [Answered(fb)], accounts)
    requires !fb.RebalanceResult? && !fb.OrderFailed?
    ensures fb.id < |accounts| ==> accounts[fb.id].side == x
  {
    assert OpFits(x, q, [Answered(fb)][0], accounts);
  }

  lemma DeliveredOrder(x: Side, q: SideQuote, fb: Feedback, accounts: seq<Account>)
    requires SideInv(x, q, [Answered(fb)], accounts)
    ensures !fb.CancelResult? ==> q.order.None?
  {
    assert OpFits(x, q, [Answered(fb)][0], accounts);
  }

  /** No rebalance is under way, so the oldest answer is a maker's. */
  lemma OldestIsAMakers(s: System)
    requires Inv(s) && !s.engine.pendingRebalance && s.feedback != []
    ensures !s.feedback[0].RebalanceResult?
    ensures Flight(s, Maker(s.feedback[0].side)) == [Answered(s.feedback[0])]
  {
    var fb := s.feedback[0];
    assert Flight(s, Taker) == [];
    assert RepliesOf(s.feedback, ReplySlot(fb))[0] == Answered(fb);
    assert Flight(s, ReplySlot(fb))[0] == Answered(fb);
    assert SideInv(fb.side, s.engine.quoter.At(fb.side), Flight(s, Maker(fb.side)), s.accounts);
  }

  /** The oldest answer is consumed. */
  lemma DeliveryReach(s: System, fvYes: real)
    requires Inv(s) && s.feedback != [] && !s.engine.pendingRebalance
    ensures !s.feedback[0].RebalanceResult?
    ensures var t, x := DeliverStep(s, fvYes), s.feedback[0].side;
            var q := s.engine.quoter.At(x);
            && Reach(t, x) <= Reach(s, x) && SameSide(s, t, Other(x)) && Least(t, x) == Least(s, x)
            && (q.order.None? || OrderRoom(q, Flight(s, Maker(x)), s.accounts) == 0.0 ==> Reach(t, x) == Reach(s, x))
  {
    var t, fb := DeliverStep(s, fvYes), s.feedback[0];
    OldestIsAMakers(s);
    assert SideInv(fb.side, s.engine.quoter.At(fb.side), Flight(s, Maker(fb.side)), s.accounts);
    DeliveredOrder(fb.side, s.engine.quoter.At(fb.side), fb, s.accounts);
    DeliverConsumes(s, fvYes);
    var _, _ := DeliverQuote(s, fvYes);
    ConsumingReach(s, t, fb);
  }

  // ── Answers ──

  lemma AnswersTakeTheHead(s: System, t: System, f: Feedback)
    requires Answers(s, t, f)
    ensures Queue(s) != [] && Queue(s)[0] == s.commands[0] && Queue(t) == Queue(s)[1..]
  {
  }

  /** The other side does not notice an answer. */
  lemma AnswerLeavesTheOther(s: System, t: System, f: Feedback, x: Side)
    requires Inv(s) && Answers(s, t, f) && ReplySlot(f) == Maker(x) && t.cachesWarm == s.cachesWarm
    requires Kept(Other(x), s.accounts, t.accounts)
    ensures SameSide(s, t, Other(x))
  {
    assert SideInv(x, s.engine.quoter.At(x), Flight(s, Maker(x)), s.accounts);
    FlightAnswered(s, t, f);
    AnswersTakeTheHead(s, t, f);
    SideUntouched(s, t, Other(x));
  }

  /** The only post a side has in the queue is its operation under way. */
  lemma NoPostBehind(s: System, t: System, f: Feedback, x: Side)
    requires Inv(s) && Answers(s, t, f) && ReplySlot(f) == Maker(x)
    ensures Flight(s, Maker(x)) == [Sent(s.commands[0])] && Flight(t, Maker(x)) == [Answered(f)]
    ensures PostRoom(t.cachesWarm, Queue(t), x) == 0.0
  {
    assert SideInv(x, s.engine.quoter.At(x), Flight(s, Maker(x)), s.accounts);
    FlightAnswered(s, t, f);
    NoPostUnderWay(t, x);
  }

  lemma QueueRoomOfHead(s: System, c: Command, x: Side)
    requires Queue(s) != [] && Queue(s)[0] == c && PostRoom(s.cachesWarm, Queue(s)[1..], x) == 0.0
    ensures c.PostOrder? && c.side == x ==>
              PostRoom(s.cachesWarm, Queue(s), x) == if s.cachesWarm then PlacedSize(c) else 0.0
    ensures c.CancelOrder? ==> PostRoom(s.cachesWarm, Queue(s), x) == 0.0
  {
  }

  /** A placed order has the room its post had, a failed one has none. */
  lemma PostReach(u: Setup, s: System, r: PostResponse)
    requires Inv(s) && Enabled(u, s, ExecPost(r))
    ensures var t, c := PostStep(s, r), s.commands[0];
            && Reach(t, c.side) <= Reach(s, c.side) && SameSide(s, t, Other(c.side))
            && (r == Welcome(s) ==> Reach(t, c.side) == Reach(s, c.side) && Least(t, c.side) == Least(s, c.side))
  {
    var t, c := PostStep(s, r), s.commands[0];
    var x, f := c.side, ReplyToPost(s.cachesWarm, c.side, c.price, c.size, r);
    PostAnswerFits(u, s, r);
    NoPostBehind(s, t, f, x);
    AnswersTakeTheHead(s, t, f);
    QueueRoomOfHead(s, c, x);
    AnswerLeavesTheOther(s, t, f, x);
    assert OpFits(x, s.engine.quoter.At(x), Flight(s, Maker(x))[0], s.accounts) by {
      assert SideInv(x, s.engine.quoter.At(x), Flight(s, Maker(x)), s.accounts);
    }
    PlacedRoom(s, t, f, r);
  }

  /** The exchange accepts every post worth sending. */
  function Welcome(s: System): PostResponse
    requires s.commands != [] && s.commands[0].PostOrder?
  {
    if s.cachesWarm && PlacedSize(s.commands[0]) > 0.0 then PostResting(|s.accounts|) else PostRejected
  }

  lemma PlacedRoom(s: System, t: System, f: Feedback, r: PostResponse)
    requires s.commands != [] && s.commands[0].PostOrder? && PostPossible(s, s.commands[0], r)
    requires t == PostStep(s, r) && s.engine.quoter.At(s.commands[0].side).order.None?
    requires var c := s.commands[0]; f == ReplyToPost(s.cachesWarm, c.side, c.price, c.size, r)
    ensures var c, q := s.commands[0], s.engine.quoter.At(s.commands[0].side);
            && OrderRoom(q, [Answered(f)], t.accounts) <= (if s.cachesWarm then PlacedSize(c) else 0.0)
            && (r == Welcome(s) ==>
                  && OrderRoom(q, [Answered(f)], t.accounts) == (if s.cachesWarm then PlacedSize(c) else 0.0)
                  && Forced(q, [Answered(f)]) == 0.0)
  {
  }

  /** A carried-out cancel may end the order's room; one that fails leaves it. */
  lemma CancelReach(u: Setup, s: System, stillLive: bool, reported: Option<real>)
    requires Inv(s) && Enabled(u, s, ExecCancel(stillLive, reported))
    ensures var t, c := CancelStep(s, stillLive, reported), s.commands[0];
            && Reach(t, c.side) <= Reach(s, c.side) && SameSide(s, t, Other(c.side))
            && (stillLive && reported.None? ==>
                  Reach(t, c.side) == Reach(s, c.side) && Least(t, c.side) == Least(s, c.side))
  {
    var t, c := CancelStep(s, stillLive, reported), s.commands[0];
    var x, f := c.side, ReplyToCancel(c.side, c.id, reported);
    NoPostBehind(s, t, f, x);
    AnswersTakeTheHead(s, t, f);
    QueueRoomOfHead(s, c, x);
    assert SideInv(x, s.engine.quoter.At(x), Flight(s, Maker(x)), s.accounts);
    assert OpFits(x, s.engine.quoter.At(x), Flight(s, Maker(x))[0], s.accounts);
    AnswerLeavesTheOther(s, t, f, x);
  }

  // ── Everything else ──

  lemma MatchReach(s: System, id: OrderId, amount: real, x: Side)
    requires Inv(s) && MatchPossible(s, id, amount)
    ensures SameSide(s, MatchStep(s, id, amount), x)
  {
    FlightSame(s, MatchStep(s, id, amount));
    SideUntouched(s, MatchStep(s, id, amount), x);
  }

  lemma FlushReach(s: System, x: Side)
    requires Inv(s)
    ensures SameSide(s, FlushStep(s), x)
  {
    FlushMovesAlong(s);
    assert Queue(FlushStep(s)) == Queue(s);
    SideUntouched(s, FlushStep(s), x);
  }

  /** A rotation that warms the executor is what the posts behind it count on. */
  lemma RotationReach(u: Setup, s: System, warmed: bool, x: Side)
    requires Inv(s) && Enabled(u, s, ExecRotation(warmed))
    ensures var t := Next(u, s, ExecRotation(warmed));
            Reach(t, x) <= Reach(s, x) && (warmed ==> SameSide(s, t, x))
  {
    var t := Next(u, s, ExecRotation(warmed));
    RotationMovesAlong(u, s, warmed);
    assert Queue(s)[0] == MarketRotation && Queue(t) == Queue(s)[1..];
    PostRoomNonNegative(warmed, Queue(t), x);
    if warmed {
      SideUntouched(s, t, x);
    }
  }

  /** An engine step that only cancels leaves the room of both sides alone. */
  lemma CancellingReach(u: Setup, s: System, t: System, now: seq<Command>, later: seq<Command>, x: Side)
    requires Inv(s) && OnlyCancels(u, s, t, now, later) && t.cachesWarm == s.cachesWarm
    ensures Reach(t, x) == Reach(s, x)
  {
    var sent := CommandsOf(now, Maker(x)) + CommandsOf(later, Maker(x));
    EngineSendsOnSide(u, s, t, now, later, x);
    assert NoPosts(sent);
    QueueWithCancels(s, t, now, later, x);
    assert OrderRoom(t.engine.quoter.At(x), Flight(t, Maker(x)), t.accounts)
        == OrderRoom(s.engine.quoter.At(x), Flight(s, Maker(x)), s.accounts) by {
      if sent == [] {
        assert Flight(t, Maker(x)) == Flight(s, Maker(x));
      } else {
        assert sent[0] in sent;
        assert Flight(t, Maker(x)) == sent;
      }
    }
  }

  lemma QueueWithCancels(s: System, t: System, now: seq<Command>, later: seq<Command>, x: Side)
    requires Sends(s, t, now, later) && (forall c :: c in now || c in later ==> c.CancelOrder?)
    ensures PostRoom(s.cachesWarm, Queue(t), x) == PostRoom(s.cachesWarm, Queue(s), x)
  {
    var c, p := s.commands, s.engine.pending;
    assert Queue(t) == c + now + (p + later);
    CancelsBetween(s.cachesWarm, c, now, p + later, x);
    assert c + (p + later) == c + p + later + [];
    CancelsBetween(s.cachesWarm, c + p, later, [], x);
    assert c + p + [] == Queue(s);
  }

  /** No step but a tick widens a side's reach. */
  lemma StepShrinksReach(u: Setup, s: System, a: Action, x: Side)
    requires Inv(s) && Enabled(u, s, a) && !a.Tick? && !s.engine.pendingRebalance
    ensures Reach(Next(u, s, a), x) <= Reach(s, x)
  {
    if IsEngineStep(a) {
      var now, later := EngineStepSends(u, s, a);
      CancellingReach(u, s, Next(u, s, a), now, later, x);
    } else {
      match a
      case UserUpdate(id, isMatch, size) => UpdateKeepsReach(s, id, isMatch, size, x);
      case Deliver(fvYes) =>
        DeliveryReach(s, fvYes);
        assert x == s.feedback[0].side || x == Other(s.feedback[0].side);
      case Flush => FlushReach(s, x);
      case Match(id, amount) => MatchReach(s, id, amount, x);
      case ExecRotation(warmed) => RotationReach(u, s, warmed, x);
      case ExecPost(r) =>
        PostReach(u, s, r);
        assert x == s.commands[0].side || x == Other(s.commands[0].side);
      case ExecCancel(stillLive, reported) =>
        CancelReach(u, s, stillLive, reported);
        assert x == s.commands[0].side || x == Other(s.commands[0].side);
      case ExecRebalance(r) => RebalanceWaits(s);
    }
  }

  /** A rebalance command in the channel is a pending rebalance. */
  lemma RebalanceWaits(s: System)
    requires Inv(s) && s.commands != [] && s.commands[0].RebalanceTaker?
    ensures s.engine.pendingRebalance
  {
    assert CommandsOf(s.commands, Taker)[0] == Sent(s.commands[0]);
    assert |Flight(s, Taker)| >= 1;
  }
}
