/** The whole order lifecycle as a transition system: the engine with its private command buffer, the command
    channel, the executor, the feedback channel, and the exchange's own truth about every order.

    A run is a sequence of actions. Every action that the outside world chooses (which message arrives when,
    what the exchange answers) is a parameter, so a run fixes one interleaving and all runs cover all of them. */
module Lifecycle {
  import opened Common
  import opened FillEngine
  import opened Position
  import opened Quoting
  import opened Orders
  import opened Strategy
  import opened Executor

  /** One accepted maker order: what the exchange knows, and `recorded`, the shares the engine has booked for it. */
  datatype Account = Account(side: Side, price: real, size: real, matched: real, live: bool, recorded: real)

  /** The engine's configuration, and the decimal grid `1 / scale` on which the exchange quotes asks. */
  datatype Setup = Setup(cfg: Config, scale: nat)

  datatype System = System(
    engine: EngineState,
    commands: seq<Command>, feedback: seq<Feedback>,
    accounts: seq<Account>,
    takerYes: real, takerNo: real,  // shares booked from rebalances
    cachesWarm: bool)
  {
    function TakerShares(side: Side): real {
      if side == Yes then takerYes else takerNo
    }
  }

  datatype Action =
    | UserUpdate(id: OrderId, isMatch: bool, cumulative: Option<real>)  // user channel, as early or late as it likes
    | Deliver(fvYes: real)                                              // engine consumes one feedback message
    | Tick(input: TickInput)
    | Flush                                                             // engine's own buffer goes to the executor
    | Heartbeat(success: bool)
    | SetPause(paused: bool)
    | BookUpdate(side: Side, book: Book)
    | Match(filled: OrderId, amount: real)                              // the exchange fills a live order
    | ExecRotation(warmed: bool)
    | ExecPost(posted: PostResponse)
    | ExecCancel(stillLive: bool, reported: Option<real>)
    | ExecRebalance(taken: TakerResponse)

  // ── What the outside world may do ──

  ghost predicate PostPossible(s: System, c: Command, r: PostResponse)
    requires c.PostOrder?
  {
    var shares := TruncateToCents(c.size);
    match r
    case PostError => true
    case PostRejected => true
    case PostResting(id) => s.cachesWarm && id == |s.accounts| && shares > 0.0
    case PostFilled(id, matched) => s.cachesWarm && id == |s.accounts| && shares > 0.0 && matched <= shares
  }

  /** A user report never exceeds what the exchange has matched. */
  ghost predicate TruthfulUpdate(s: System, id: OrderId, cumulative: Option<real>) {
    cumulative.Some? && id < |s.accounts| ==> cumulative.value <= s.accounts[id].matched
  }

  ghost predicate MatchPossible(s: System, id: OrderId, amount: real) {
    && id < |s.accounts| && s.accounts[id].live
    && amount > 0.0 && s.accounts[id].matched + amount <= s.accounts[id].size
  }

  ghost predicate Enabled(u: Setup, s: System, a: Action) {
    match a
    case UserUpdate(id, _, cumulative) => TruthfulUpdate(s, id, cumulative)
    case Deliver(_) => s.feedback != []
    case Match(id, amount) => MatchPossible(s, id, amount)
    case ExecRotation(_) => s.commands != [] && s.commands[0].MarketRotation?
    case ExecPost(r) => s.commands != [] && s.commands[0].PostOrder? && PostPossible(s, s.commands[0], r)
    case ExecCancel(_, reported) =>
      && s.commands != [] && s.commands[0].CancelOrder?
      && (reported.Some? && s.commands[0].id < |s.accounts| ==>
            reported.value <= s.accounts[s.commands[0].id].matched)
    case ExecRebalance(r) =>
      && s.commands != [] && s.commands[0].RebalanceTaker? && u.scale > 0
      && PriceUnits(s.commands[0].price, u.scale) as real == s.commands[0].price * u.scale as real
      && (r.TakerDone? ==> r.matched >= 0.0)
    case _ => true
  }

  // ── What happens ──

  /** Books `delta` shares for order `id`. */
  function Credit(accounts: seq<Account>, id: OrderId, delta: real): seq<Account> {
    if id < |accounts| then accounts[id := accounts[id].(recorded := accounts[id].recorded + delta)] else accounts
  }

  function AllShares(e: EngineState): real {
    e.Shares(Yes) + e.Shares(No)
  }

  function DeliverStep(s: System, fvYes: real): System
    requires s.feedback != []
  {
    var fb := s.feedback[0];
    var e := OnFeedback(s.engine, fb, fvYes);
    var booked := AllShares(e) - AllShares(s.engine);
    var s1 := s.(engine := e, feedback := s.feedback[1..]);
    match fb
    case OrderPosted(_, id, _, _, _) => s1.(accounts := Credit(s.accounts, id, booked))
    case CancelResult(_, id, _) => s1.(accounts := Credit(s.accounts, id, booked))
    case RebalanceResult(Yes, _, _, _) => s1.(takerYes := s.takerYes + booked)
    case RebalanceResult(No, _, _, _) => s1.(takerNo := s.takerNo + booked)
    case OrderFailed(_) => s1
  }

  function PostStep(s: System, r: PostResponse): System
    requires s.commands != [] && s.commands[0].PostOrder?
  {
    var c := s.commands[0];
    var reply := ReplyToPost(s.cachesWarm, c.side, c.price, c.size, r);
    var s1 := s.(commands := s.commands[1..], feedback := s.feedback + [reply]);
    if reply.OrderFailed? then s1
    else
      var matched := if reply.alreadyFilled then reply.size else 0.0;
      var account := Account(c.side, reply.price, reply.size, matched, !reply.alreadyFilled, 0.0);
      s1.(accounts := s.accounts + [account])
  }

  function CancelStep(s: System, stillLive: bool, reported: Option<real>): System
    requires s.commands != [] && s.commands[0].CancelOrder?
  {
    var c := s.commands[0];
    var s1 := s.(commands := s.commands[1..], feedback := s.feedback + [ReplyToCancel(c.side, c.id, reported)]);
    if c.id < |s.accounts| && !stillLive
    then s1.(accounts := s.accounts[c.id := s.accounts[c.id].(live := false)])
    else s1
  }

  function RebalanceStep(u: Setup, s: System, r: TakerResponse): System
    requires u.scale > 0 && s.commands != [] && s.commands[0].RebalanceTaker?
  {
    var c := s.commands[0];
    var reply := ReplyToRebalance(s.cachesWarm, c.side, c.price, c.size, u.scale, r);
    s.(commands := s.commands[1..], feedback := s.feedback + [reply])
  }

  function UpdateStep(s: System, id: OrderId, isMatch: bool, cumulative: Option<real>): System {
    var e := OnTradeStatus(s.engine, id, isMatch, cumulative);
    s.(engine := e, accounts := Credit(s.accounts, id, AllShares(e) - AllShares(s.engine)))
  }

  ghost function TickStep(u: Setup, s: System, m: TickInput): System {
    var (e, sent) := QuoteTick(u.cfg, s.engine, m);
    s.(engine := e, commands := s.commands + sent)
  }

  function HeartbeatStep(u: Setup, s: System, success: bool): System {
    s.(engine := OnHeartbeat(u.cfg, s.engine, success))
  }

  function PauseStep(s: System, paused: bool): System {
    var (e, sent) := SetPaused(s.engine, paused);
    s.(engine := e, commands := s.commands + sent)
  }

  function FlushStep(s: System): System {
    s.(engine := s.engine.(pending := []), commands := s.commands + s.engine.pending)
  }

  function BookStep(s: System, side: Side, book: Book): System {
    s.(engine := s.engine.WithBook(side, Some(book)))
  }

  function MatchStep(s: System, id: OrderId, amount: real): System
    requires id < |s.accounts|
  {
    s.(accounts := s.accounts[id := s.accounts[id].(matched := s.accounts[id].matched + amount)])
  }

  ghost function Next(u: Setup, s: System, a: Action): System
    requires Enabled(u, s, a)
  {
    match a
    case UserUpdate(id, isMatch, cumulative) => UpdateStep(s, id, isMatch, cumulative)
    case Deliver(fvYes) => DeliverStep(s, fvYes)
    case Tick(m) => TickStep(u, s, m)
    case Flush => FlushStep(s)
    case Heartbeat(success) => HeartbeatStep(u, s, success)
    case SetPause(paused) => PauseStep(s, paused)
    case BookUpdate(side, book) => BookStep(s, side, book)
    case Match(id, amount) => MatchStep(s, id, amount)
    case ExecRotation(warmed) => s.(commands := s.commands[1..], cachesWarm := warmed)
    case ExecPost(r) => PostStep(s, r)
    case ExecCancel(stillLive, reported) => CancelStep(s, stillLive, reported)
    case ExecRebalance(r) => RebalanceStep(u, s, r)
  }

  /** A market epoch that starts quiescent: nothing rests, nothing is in flight, the rotation is on its way. */
  const START := System(
    EngineState(EMPTY, QuoterState(IDLE, IDLE), false, [MarketRotation], false, false, true, 0, None, None),
    [], [], [], 0.0, 0.0, false)

  /** Every action of the run is possible when its turn comes. */
  ghost predicate RunFrom(u: Setup, s: System, run: seq<Action>)
    decreases |run|
  {
    run == [] || (Enabled(u, s, run[0]) && RunFrom(u, Next(u, s, run[0]), run[1..]))
  }

  ghost function After(u: Setup, s: System, run: seq<Action>): System
    requires RunFrom(u, s, run)
    decreases |run|
  {
    if run == [] then s else After(u, Next(u, s, run[0]), run[1..])
  }

  // ── Operations in flight ──

  /** Who waits for an operation: a side's maker order, the taker rebalance, or nobody. */
  datatype Slot = Maker(side: Side) | Taker | Control

  datatype Op = Sent(command: Command) | Answered(reply: Feedback)

  function CommandSlot(c: Command): Slot {
    match c
    case PostOrder(side, _, _) => Maker(side)
    case CancelOrder(side, _) => Maker(side)
    case RebalanceTaker(_, _, _) => Taker
    case MarketRotation => Control
  }

  function ReplySlot(f: Feedback): Slot {
    match f
    case OrderPosted(side, _, _, _, _) => Maker(side)
    case OrderFailed(side) => Maker(side)
    case CancelResult(side, _, _) => Maker(side)
    case RebalanceResult(_, _, _, _) => Taker
  }

  ghost function CommandsOf(q: seq<Command>, slot: Slot): seq<Op> {
    if q == [] then []
    else (if CommandSlot(q[0]) == slot then [Sent(q[0])] else []) + CommandsOf(q[1..], slot)
  }

  ghost function RepliesOf(q: seq<Feedback>, slot: Slot): seq<Op> {
    if q == [] then []
    else (if ReplySlot(q[0]) == slot then [Answered(q[0])] else []) + RepliesOf(q[1..], slot)
  }

  /** The outstanding operations of one slot, oldest first. */
  ghost function Flight(s: System, slot: Slot): seq<Op> {
    RepliesOf(s.feedback, slot) + CommandsOf(s.commands, slot) + CommandsOf(s.engine.pending, slot)
  }

  lemma Reassociate(a: seq<Op>, b: seq<Op>, c: seq<Op>)
    ensures a + (b + c) == a + b + c
  {
  }

  lemma {:induction false} CommandsOfConcat(a: seq<Command>, b: seq<Command>, slot: Slot)
    ensures CommandsOf(a + b, slot) == CommandsOf(a, slot) + CommandsOf(b, slot)
  {
    if a == [] {
      assert a + b == b;
    } else {
      assert (a + b)[0] == a[0] && (a + b)[1..] == a[1..] + b;
      CommandsOfConcat(a[1..], b, slot);
      var first := if CommandSlot(a[0]) == slot then [Sent(a[0])] else [];
      assert CommandsOf(a + b, slot) == first + CommandsOf(a[1..] + b, slot);
      Reassociate(first, CommandsOf(a[1..], slot), CommandsOf(b, slot));
    }
  }

  lemma {:induction false} RepliesOfConcat(a: seq<Feedback>, b: seq<Feedback>, slot: Slot)
    ensures RepliesOf(a + b, slot) == RepliesOf(a, slot) + RepliesOf(b, slot)
  {
    if a == [] {
      assert a + b == b;
    } else {
      assert (a + b)[0] == a[0] && (a + b)[1..] == a[1..] + b;
      RepliesOfConcat(a[1..], b, slot);
      var first := if ReplySlot(a[0]) == slot then [Answered(a[0])] else [];
      assert RepliesOf(a + b, slot) == first + RepliesOf(a[1..] + b, slot);
      Reassociate(first, RepliesOf(a[1..], slot), RepliesOf(b, slot));
    }
  }
}
