/** The wire-level vocabulary: sides, requests, responses and market updates,
  * and the capacities that size every direct-indexed table.
  */
module Types {

  datatype Option<+T> = None | Some(value: T)

  /** Enumeration of an order's side; `NoSide` is the wire value 0. */
  datatype Side = Buy | Sell | NoSide

  /** The sentinel a default-constructed strong type carries. */
  const INVALID_64: nat := 0xFFFF_FFFF_FFFF_FFFF
  const INVALID_32: nat := 0xFFFF_FFFF

  /** Table capacities. The two build profiles differ only in these numbers, so
    * they stay symbolic.
    */
  datatype Config = Config(priceLevels: nat, orderIds: nat, clients: nat, tickers: nat) {
    predicate Valid() {
      && 0 < priceLevels
      && orderIds < INVALID_64
      && clients < INVALID_32
      && tickers < INVALID_32
    }
  }

  datatype RequestKind = NewRequest | CancelRequest | OtherRequest

  datatype Request = Request(kind: RequestKind, client: nat, ticker: nat, orderId: nat,
                             side: Side, price: nat, qty: nat)

  datatype ResponseKind = Rejected | Accepted | Canceled | Filled | CancelRejected

  datatype Response = Response(kind: ResponseKind, client: nat, ticker: nat,
                               clientOrderId: nat, marketOrderId: nat,
                               side: Side, price: nat, execQty: nat, leavesQty: nat)

  datatype UpdateKind = Clear | Add | Modify | Cancel | Trade | SnapshotStart | SnapshotEnd | UnknownUpdate

  datatype MarketUpdate = MarketUpdate(kind: UpdateKind, ticker: nat, side: Side, price: nat,
                                       qty: nat, orderId: nat, priority: nat)

  function Min(a: nat, b: nat): nat {
    if a < b then a else b
  }

  function Opposite(side: Side): Side {
    if side == Buy then Sell else Buy
  }

  /** The place after `i` on a circle of `n`. */
  function Wrap(i: nat, n: nat): nat {
    if i + 1 == n then 0 else i + 1
  }
}
