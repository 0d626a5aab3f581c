/** The executor: every order command is answered by exactly one feedback message. What the exchange says is
    a parameter. */
module Executor {
  import opened Common
  import opened FillEngine
  import opened Orders
  import FokSize

  /** Answer of the exchange to a maker order. */
  datatype PostResponse =
    | PostError
    | PostRejected
    | PostResting(id: OrderId)
    | PostFilled(id: OrderId, matched: real)

  /** Answer of the exchange to a fill-or-kill order. */
  datatype TakerResponse = TakerError | TakerDone(filled: bool, matched: real)

  /** How warming up one token of a new market went: its id was readable, and each of its three caches answered. */
  datatype TokenWarmup = TokenWarmup(parsed: bool, tickSize: bool, negRisk: bool, feeRate: bool) {
    predicate Complete() {
      parsed && tickSize && negRisk && feeRate
    }
  }

  function ReplyToPost(warm: bool, side: Side, price: real, size: real, r: PostResponse): Feedback {
    if !warm then OrderFailed(side)
    else
      var rounded, shares := RoundToTick(price, CENT), TruncateToCents(size);
      match r
      case PostError => OrderFailed(side)
      case PostRejected => OrderFailed(side)
      case PostResting(id) => OrderPosted(side, id, rounded, shares, false)
      case PostFilled(id, matched) => OrderPosted(side, id, rounded, if matched > 0.0 then matched else shares, true)
  }

  function ReplyToCancel(side: Side, id: OrderId, sizeMatched: Option<real>): Feedback {
    CancelResult(side, id, sizeMatched)
  }

  /** Price in units of `1 / scale`. */
  function PriceUnits(price: real, scale: nat): nat {
    if price <= 0.0 then 0 else (price * scale as real).Floor
  }

  /** Shares the fill-or-kill order is sent for. */
  function SafeShares(price: real, size: real, scale: nat): real
    requires scale > 0
  {
    FokSize.SafeSize(PriceUnits(price, scale), scale, size) as real / 100.0
  }

  function ReplyToRebalance(warm: bool, side: Side, price: real, size: real, scale: nat, r: TakerResponse): Feedback
    requires scale > 0
  {
    var safe := SafeShares(price, size, scale);
    if !warm || safe == 0.0 || r.TakerError? then RebalanceResult(side, false, 0.0, price)
    else RebalanceResult(side, r.filled, Min(r.matched, safe), price)
  }

  class LiveExecutor {
    var cachesWarm: bool
    var sent: seq<Feedback>  // the feedback channel, as this executor has filled it

    constructor ()
      ensures !cachesWarm && sent == []
    {
      cachesWarm, sent := false, [];
    }

    method HandlePostOrder(side: Side, price: real, size: real, r: PostResponse)
      modifies this`sent
      ensures sent == old(sent) + [ReplyToPost(cachesWarm, side, price, size, r)]
    {
      if !cachesWarm {
        sent := sent + [OrderFailed(side)];
        return;
      }
      var rounded := RoundToTick(price, CENT);
      var shares := TruncateToCents(size);
      match r
      case PostError =>
        sent := sent + [OrderFailed(side)];
      case PostRejected =>
        sent := sent + [OrderFailed(side)];
      case PostResting(id) =>
        sent := sent + [OrderPosted(side, id, rounded, shares, false)];
      case PostFilled(id, matched) =>
        var filled := if matched > 0.0 then matched else shares;
        sent := sent + [OrderPosted(side, id, rounded, filled, true)];
    }

    method HandleCancel(side: Side, id: OrderId, sizeMatched: Option<real>)
      modifies this`sent
      ensures sent == old(sent) + [ReplyToCancel(side, id, sizeMatched)]
    {
      sent := sent + [CancelResult(side, id, sizeMatched)];
    }

    method HandleRebalanceTaker(side: Side, price: real, size: real, scale: nat, r: TakerResponse)
      requires scale > 0
      modifies this`sent
      ensures sent == old(sent) + [ReplyToRebalance(cachesWarm, side, price, size, scale, r)]
    {
      if !cachesWarm {
        sent := sent + [RebalanceResult(side, false, 0.0, price)];
        return;
      }
      var cents := FokSize.ClobSafeFokSize(PriceUnits(price, scale), scale, size);
      var safe := cents as real / 100.0;
      if safe == 0.0 {
        sent := sent + [RebalanceResult(side, false, 0.0, price)];
        return;
      }
      match r
      case TakerError =>
        sent := sent + [RebalanceResult(side, false, 0.0, price)];
      case TakerDone(filled, matched) =>
        sent := sent + [RebalanceResult(side, filled, Min(matched, safe), price)];
    }

    /** Trading stays blocked after a rotation unless there is a client and every cache of both tokens was warmed. */
    method OnMarketRotation(warmups: Option<(TokenWarmup, TokenWarmup)>)
      modifies this`cachesWarm
      ensures cachesWarm <==> warmups.Some? && warmups.value.0.Complete() && warmups.value.1.Complete()
    {
      cachesWarm := false;
      if warmups.Some? {
        var allOk := true;
        var tokens := [warmups.value.0, warmups.value.1];
        for i := 0 to |tokens|
          invariant allOk <==> forall j :: 0 <= j < i ==> tokens[j].Complete()
        {
          var t := tokens[i];
          if t.parsed {
            if !t.tickSize {
              allOk := false;
            }
            if !t.negRisk {
              allOk := false;
            }
            if !t.feeRate {
              allOk := false;
            }
          } else {
            allOk := false;
          }
        }
        assert tokens[0] == warmups.value.0 && tokens[1] == warmups.value.1;
        if allOk {
          cachesWarm := true;
        }
      }
    }
  }

  /** A size worth a dollar is less than one share short of the minimum order. */
  lemma MinimumIsWithinOneShare(p: nat, scale: nat, size: real)
    requires p > 0 && scale > 0 && scale as real <= size * p as real
    ensures FokSize.MinimumSize(p, scale) as real / 100.0 < size + 1.0
  {
    var short := FokSize.MinimumSize(p, scale) - 100;
    FokSize.MinimumSizePositive(p, scale);
    assert p * short < 100 * scale;
    ProductAsReal(short, p);
    HundredTimes(size, p as real);
    CancelFactor(short as real, 100.0 * size, p as real);
  }

  lemma HundredTimes(a: real, b: real)
    ensures 100.0 * a * b == 100.0 * (a * b)
  {
  }

  lemma ProductAsReal(a: int, b: int)
    ensures (a * b) as real == a as real * b as real
  {
  }

  lemma WorthADollarInUnits(p: nat, scale: nat, price: real, size: real)
    requires scale > 0 && price > 0.0 && size * price >= 1.0 && p as real == price * scale as real
    ensures p > 0 && scale as real <= size * p as real
  {
    MulStrict(0.0, price, scale as real);
    MulMono(1.0, size * price, scale as real);
    assert size * p as real == size * price * scale as real;
  }

  /** With two price decimals a rebalance overshoots the requested size by less than one share. */
  lemma SafeSharesBound(price: real, size: real, scale: nat, m: nat)
    requires scale > 0 && price > 0.0 && size * price >= 1.0
    requires PriceUnits(price, scale) as real == price * scale as real
    ensures 0.0 <= SafeShares(price, size, scale) < size + 101.0
    ensures scale * m == 100 ==> SafeShares(price, size, scale) < size + 1.0
  {
    var p := PriceUnits(price, scale);
    WorthADollarInUnits(p, scale, price, size);
    MinimumIsWithinOneShare(p, scale, size);
    FokSize.SafeSizeOvershoot(p, scale, m, size);
    var f := FokSize.FloorSize(size);
    assert f as real <= size * 100.0;
  }
}
