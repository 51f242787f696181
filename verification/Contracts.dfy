/** The records on the two streams, and the constants the wire contract fixes. */
module Contracts {

  const BUY := 1
  const SELL := 2
  const GTC := 1
  const IOC := 2

  const USER_REQUESTED := 1
  const IOC_EXPIRED := 2

  const INVALID_PRICE := 2
  const INVALID_QUANTITY := 3
  const INVALID_SIDE := 4
  const INVALID_TIF := 5
  const INSUFFICIENT_CASH := 6
  const INSUFFICIENT_POSITION := 7
  const UNKNOWN_ORDER := 8

  datatype Option<+T> = None | Some(value: T)

  /** What the gateway appends. `side` and `tif` are raw wire integers, so they may be invalid.
      `Unrecognised` stands for any record type the engines do not act on. */
  datatype Inbound =
    | SubmitOrder(ts: int, client: int, user: int, symbol: int, side: int, tif: int, price: int, qty: int)
    | CancelOrder(ts: int, client: int, user: int, target: int)
    | CreateAccount(ts: int, client: int, user: int)
    | CreditCash(ts: int, client: int, user: int, amount: int)
    | ConfigureReplay(ts: int, client: int, rate: int, hashHi: int, hashLo: int)
    | Unrecognised(ts: int)

  /** What the matcher appends. */
  datatype Outbound =
    | OrderAccepted(ts: int, orderId: int, client: int, user: int, price: int, qty: int, symbol: int, side: int,
                    tif: int)
    | OrderRejected(ts: int, client: int, user: int, symbol: int, reason: int)
    | Fill(ts: int, maker: int, taker: int, makerUser: int, takerUser: int, price: int, qty: int, symbol: int,
           aggressor: int)
    | OrderCancelled(ts: int, orderId: int, client: int, user: int, remaining: int, symbol: int, reason: int)
    | AccountCreated(ts: int, client: int, user: int, cash: int)
    | CashCredited(ts: int, client: int, user: int, amount: int)
    | ReplayConfigured(ts: int, client: int, rate: int, hashHi: int, hashLo: int)

  function Opposite(side: int): int {
    if side == BUY then SELL else BUY
  }

  function Min(a: int, b: int): int {
    if a < b then a else b
  }

  function Max(a: int, b: int): int {
    if a < b then b else a
  }
}
