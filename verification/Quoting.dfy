/** Per-side order management: one resting maker order a side, its pending operations, and the decision
    to post, cancel or hold. */
module Quoting {
  import opened Common
  import opened Position
  import opened Sizing

  datatype ManagedOrder = ManagedOrder(
    id: OrderId, price: real, size: real,
    fairValueAtPost: real, askAtPost: real,
    sizeFilled: real)  // cumulative fills already recorded

  datatype ClearedOrder = ClearedOrder(id: OrderId, price: real, sizeFilled: real)

  datatype QuotingConfig = QuotingConfig(
    minEdge: real, requoteThreshold: real,
    maxOrderSize: real, minOrderSize: real,
    maxFairValueExtremity: real, maxBatches: nat)

  datatype RiskConfig = RiskConfig(
    maxUnpairedShares: real,
    rebalanceThreshold: real, rebalanceSize: real, rebalanceMaxPairCost: real,
    staleBookMs: nat, heartbeatDeadThreshold: nat,
    goDark: real, goLive: real)

  /** What one evaluation asks for. */
  datatype Decision = Hold | Post(price: real, size: real) | Cancel(id: OrderId)

  // ── One side, as a value ──

  datatype SideQuote = SideQuote(
    order: Option<ManagedOrder>, pendingPost: bool, pendingCancel: bool, lastCleared: Option<ClearedOrder>)
  {
    predicate Pending() {
      pendingCancel || pendingPost
    }

    function Posted(o: ManagedOrder): SideQuote {
      this.(order := Some(o), pendingPost := false)
    }

    function PostFailed(): SideQuote {
      this.(pendingPost := false)
    }

    function CancelSent(): SideQuote {
      this.(pendingCancel := true)
    }

    function MarkPost(): SideQuote {
      this.(pendingPost := true)
    }

    /** Forgets the resting order but remembers what was recorded for it. */
    function Cleared(): SideQuote {
      match order
      case None => this
      case Some(o) => this.(order := None, lastCleared := Some(ClearedOrder(o.id, o.price, o.sizeFilled)))
    }

    function CancelDone(): SideQuote {
      Cleared().(pendingCancel := false)
    }

    function Filled(wasFull: bool): SideQuote {
      if wasFull then Cleared() else this
    }

    /** Shares that a cumulative report adds to what is already recorded. */
    function WsDelta(cumulative: real): real {
      match order
      case None => 0.0
      case Some(o) => Max(cumulative - o.sizeFilled, 0.0)
    }

    function WsRecorded(cumulative: real): SideQuote {
      match order
      case None => this
      case Some(o) => this.(order := Some(o.(sizeFilled := Max(o.sizeFilled, cumulative))))
    }

    /** Price and recorded size of the order a cancel result talks about. */
    function Lookup(id: OrderId): Option<(real, real)> {
      if order.Some? && order.value.id == id then Some((order.value.price, order.value.sizeFilled))
      else if lastCleared.Some? && lastCleared.value.id == id then
        Some((lastCleared.value.price, lastCleared.value.sizeFilled))
      else None
    }

    /** The order a cancel should go to, unless one is already on its way. */
    function CancelTarget(): Option<OrderId> {
      if pendingCancel || order.None? then None else Some(order.value.id)
    }
  }

  const IDLE := SideQuote(None, false, false, None)

  datatype QuoterState = QuoterState(yes: SideQuote, no: SideQuote) {

    function At(side: Side): SideQuote {
      if side == Yes then yes else no
    }

    function With(side: Side, q: SideQuote): QuoterState {
      if side == Yes then this.(yes := q) else this.(no := q)
    }

    predicate HasResting() {
      yes.order.Some? || no.order.Some?
    }
  }

  // ── The quoting decision ──

  ghost function TotalCap(quoting: QuotingConfig): real {
    RungTotal(quoting.maxOrderSize, quoting.minOrderSize, quoting.maxBatches)
  }

  ghost function QuoteSize(quoting: QuotingConfig, shares: real): real {
    PostSize(quoting.maxOrderSize, quoting.minOrderSize, shares, quoting.maxBatches)
  }

  /** The guards that stand between a side and a new quote, the pending flags aside. */
  ghost predicate MayQuote(side: Side, target: real, position: Totals, quoting: QuotingConfig, risk: RiskConfig) {
    var shares := position.At(side).shares;
    var otherAvg := Avg(position.At(Other(side)));
    && position.Unpaired(side) < risk.maxUnpairedShares
    && shares < TotalCap(quoting)
    && (otherAvg > 0.0 ==> otherAvg + target < 1.0)
    && target > 0.0
    && QuoteSize(quoting, shares) >= quoting.minOrderSize
    && Notional(target, QuoteSize(quoting, shares)) >= 1.0
  }

  function Notional(price: real, size: real): real {
    price * size
  }

  predicate Drifted(o: ManagedOrder, fair: real, ask: real, quoting: QuotingConfig) {
    || Abs(fair - o.fairValueAtPost) >= quoting.requoteThreshold
    || Max(o.askAtPost - ask, 0.0) >= quoting.requoteThreshold
  }

  ghost function Evaluate(q: SideQuote, side: Side, target: real, fair: real, ask: real, lagging: bool,
                          position: Totals, quoting: QuotingConfig, risk: RiskConfig): Decision
  {
    if q.Pending() || !MayQuote(side, target, position, quoting, risk) then Hold
    else
      match q.order
      case Some(o) => if Drifted(o, fair, ask, quoting) then Cancel(o.id) else Hold
      case None =>
        if !lagging && ask > 0.0 && ask - target < quoting.minEdge then Hold
        else Post(target, QuoteSize(quoting, position.At(side).shares))
  }

  // ── The mutable quoter of the program ──

  class Quoter {
    var yesOrder: Option<ManagedOrder>
    var noOrder: Option<ManagedOrder>
    var yesPendingCancel: bool
    var noPendingCancel: bool
    var yesPendingPost: bool
    var noPendingPost: bool
    var yesLastCleared: Option<ClearedOrder>
    var noLastCleared: Option<ClearedOrder>

    function View(): QuoterState
      reads this
    {
      QuoterState(
        SideQuote(yesOrder, yesPendingPost, yesPendingCancel, yesLastCleared),
        SideQuote(noOrder, noPendingPost, noPendingCancel, noLastCleared))
    }

    constructor ()
      ensures View() == QuoterState(IDLE, IDLE)
    {
      yesOrder, noOrder := None, None;
      yesPendingCancel, noPendingCancel := false, false;
      yesPendingPost, noPendingPost := false, false;
      yesLastCleared, noLastCleared := None, None;
    }

    method EvaluateSide(side: Side, target: real, fair: real, ask: real, lagging: bool,
                        position: BilateralPosition, quoting: QuotingConfig, risk: RiskConfig)
      returns (d: Decision)
      requires position.Valid()
      ensures d == Evaluate(View().At(side), side, target, fair, ask, lagging, position.View(), quoting, risk)
    {
      var p := position.View();
      if IsPending(side) {
        return Hold;
      }
      if p.Unpaired(side) >= risk.maxUnpairedShares {
        return Hold;
      }
      var totalCap := MaxTotalShares(quoting.maxOrderSize, quoting.minOrderSize, quoting.maxBatches);
      var shares := p.At(side).shares;
      if shares >= totalCap {
        return Hold;
      }
      var otherAvg := Avg(p.At(Other(side)));
      if otherAvg > 0.0 && otherAvg + target >= 1.0 {
        return Hold;
      }
      var dynamicMax := DynamicOrderSize(quoting.maxOrderSize, quoting.minOrderSize, shares, quoting.maxBatches);
      if target <= 0.0 {
        return Hold;
      }
      var size := Max(Min(dynamicMax, totalCap - shares), 0.0);
      assert size == QuoteSize(quoting, shares);
      if size < quoting.minOrderSize {
        return Hold;
      }
      if Notional(target, size) < 1.0 {
        return Hold;
      }
      match Order(side)
      case None =>
        if !lagging && ask > 0.0 && ask - target < quoting.minEdge {
          return Hold;
        }
        d := Post(target, size);
      case Some(existing) =>
        if Drifted(existing, fair, ask, quoting) {
          d := Cancel(existing.id);
        } else {
          d := Hold;
        }
    }

    method OnOrderPosted(side: Side, order: ManagedOrder)
      modifies this
      ensures View() == old(View()).With(side, old(View()).At(side).Posted(order))
    {
      match side
      case Yes =>
        yesOrder := Some(order);
        yesPendingPost := false;
      case No =>
        noOrder := Some(order);
        noPendingPost := false;
    }

    method OnOrderFailed(side: Side)
      modifies this
      ensures View() == old(View()).With(side, old(View()).At(side).PostFailed())
    {
      match side
      case Yes => yesPendingPost := false;
      case No => noPendingPost := false;
    }

    method OnCancelSent(side: Side)
      modifies this
      ensures View() == old(View()).With(side, old(View()).At(side).CancelSent())
    {
      match side
      case Yes => yesPendingCancel := true;
      case No => noPendingCancel := true;
    }

    method OnCancelResult(side: Side)
      modifies this
      ensures View() == old(View()).With(side, old(View()).At(side).CancelDone())
    {
      match side
      case Yes =>
        if yesOrder.Some? {
          yesLastCleared := Some(ClearedOrder(yesOrder.value.id, yesOrder.value.price, yesOrder.value.sizeFilled));
        }
        yesOrder := None;
        yesPendingCancel := false;
      case No =>
        if noOrder.Some? {
          noLastCleared := Some(ClearedOrder(noOrder.value.id, noOrder.value.price, noOrder.value.sizeFilled));
        }
        noOrder := None;
        noPendingCancel := false;
    }

    method OnFill(side: Side, wasFull: bool)
      modifies this
      ensures View() == old(View()).With(side, old(View()).At(side).Filled(wasFull))
    {
      if wasFull {
        match side
        case Yes =>
          if yesOrder.Some? {
            yesLastCleared := Some(ClearedOrder(yesOrder.value.id, yesOrder.value.price, yesOrder.value.sizeFilled));
          }
          yesOrder := None;
        case No =>
          if noOrder.Some? {
            noLastCleared := Some(ClearedOrder(noOrder.value.id, noOrder.value.price, noOrder.value.sizeFilled));
          }
          noOrder := None;
      }
    }

    method RecordWsFill(side: Side, cumulative: real) returns (delta: real)
      modifies this
      ensures delta == old(View()).At(side).WsDelta(cumulative)
      ensures View() == old(View()).With(side, old(View()).At(side).WsRecorded(cumulative))
    {
      match Order(side)
      case None =>
        delta := 0.0;
      case Some(o) =>
        delta := Max(cumulative - o.sizeFilled, 0.0);
        var updated := o.(sizeFilled := Max(o.sizeFilled, cumulative));
        match side
        case Yes => yesOrder := Some(updated);
        case No => noOrder := Some(updated);
    }

    method MarkPostPending(side: Side)
      modifies this
      ensures View() == old(View()).With(side, old(View()).At(side).MarkPost())
    {
      match side
      case Yes => yesPendingPost := true;
      case No => noPendingPost := true;
    }

    method Reset()
      modifies this
      ensures View() == QuoterState(IDLE, IDLE)
    {
      yesOrder, noOrder := None, None;
      yesPendingCancel, noPendingCancel := false, false;
      yesPendingPost, noPendingPost := false, false;
      yesLastCleared, noLastCleared := None, None;
    }

    function CancelSideAction(side: Side): Option<OrderId>
      reads this
    {
      View().At(side).CancelTarget()
    }

    function LookupOrderForCancel(side: Side, id: OrderId): Option<(real, real)>
      reads this
    {
      View().At(side).Lookup(id)
    }

    function Order(side: Side): Option<ManagedOrder>
      reads this
    {
      if side == Yes then yesOrder else noOrder
    }

    predicate HasRestingOrders()
      reads this
    {
      yesOrder.Some? || noOrder.Some?
    }

    predicate IsPending(side: Side)
      reads this
    {
      if side == Yes then yesPendingCancel || yesPendingPost else noPendingCancel || noPendingPost
    }
  }

  // ── Deduplication laws ──

  /** Any sequence of cumulative reports, repeated and reordered as it may be, adds up to the largest one. */
  ghost function AfterReports(q: SideQuote, reports: seq<real>): SideQuote {
    if reports == [] then q
    else AfterReports(q, reports[..|reports| - 1]).WsRecorded(reports[|reports| - 1])
  }

  ghost function DeltasOf(q: SideQuote, reports: seq<real>): real {
    if reports == [] then 0.0
    else
      var before := AfterReports(q, reports[..|reports| - 1]);
      DeltasOf(q, reports[..|reports| - 1]) + before.WsDelta(reports[|reports| - 1])
  }

  ghost function Largest(floor: real, reports: seq<real>): real {
    if reports == [] then floor
    else Max(Largest(floor, reports[..|reports| - 1]), reports[|reports| - 1])
  }

  lemma {:induction false} ReportsAddUpToTheLargest(q: SideQuote, reports: seq<real>)
    requires q.order.Some?
    ensures DeltasOf(q, reports) == Largest(q.order.value.sizeFilled, reports) - q.order.value.sizeFilled
    ensures AfterReports(q, reports)
         == q.(order := Some(q.order.value.(sizeFilled := Largest(q.order.value.sizeFilled, reports))))
  {
    if reports != [] {
      ReportsAddUpToTheLargest(q, reports[..|reports| - 1]);
    }
  }

  /** Hence only the set of reports matters. */
  lemma {:induction false} LargestIsAnUpperBound(floor: real, reports: seq<real>, r: real)
    ensures Largest(floor, reports) >= floor
    ensures r in reports ==> r <= Largest(floor, reports)
    ensures Largest(floor, reports) == floor || Largest(floor, reports) in reports
  {
    if reports != [] {
      var front := reports[..|reports| - 1];
      assert reports == front + [reports[|reports| - 1]];
      LargestIsAnUpperBound(floor, front, r);
    }
  }

  lemma DuplicatesAndOrderDoNotMatter(q: SideQuote, a: seq<real>, b: seq<real>)
    requires q.order.Some?
    requires forall r :: r in a <==> r in b
    ensures DeltasOf(q, a) == DeltasOf(q, b) && AfterReports(q, a) == AfterReports(q, b)
  {
    var floor := q.order.value.sizeFilled;
    ReportsAddUpToTheLargest(q, a);
    ReportsAddUpToTheLargest(q, b);
    LargestIsAnUpperBound(floor, a, Largest(floor, b));
    LargestIsAnUpperBound(floor, b, Largest(floor, a));
  }
}
