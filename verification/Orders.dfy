/** Messages between the engine and the executor. Token ids are determined by the side and left out. */
module Orders {
  import opened Common

  datatype Command =
    | PostOrder(side: Side, price: real, size: real)
    | CancelOrder(side: Side, id: OrderId)
    | RebalanceTaker(side: Side, price: real, size: real)
    | MarketRotation

  datatype Feedback =
    | OrderPosted(side: Side, id: OrderId, price: real, size: real, alreadyFilled: bool)
    | OrderFailed(side: Side)
    | CancelResult(side: Side, id: OrderId, sizeMatched: Option<real>)
    | RebalanceResult(side: Side, filled: bool, taken: real, price: real)
}
