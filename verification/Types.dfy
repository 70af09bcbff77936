/** Entities shared by the matching engine, the ledger and the services.

    Decimals are modelled as exact reals; `DecimalRules.dfy` states when the
    source's finite precision changes nothing. */
module Types {
  type UserId = string
  type AssetId = string
  type MarketId = string

  /** The position of the order's row in the orders table, which is kept in `createdAt` order. */
  type OrderId = nat

  datatype Option<+T> = None | Some(value: T)

  datatype Result<+T> = Ok(value: T) | Err(error: Error)

  /** The exceptions the source throws on the modelled paths. */
  datatype Error =
    | BadRequest
    | Conflict
    | HoldNotFound
    | InsufficientBalance
    | InvalidLedgerEntry
    | LedgerImbalance
    | NotFound

  datatype Side = Buy | Sell

  function Opposite(side: Side): Side {
    if side == Buy then Sell else Buy
  }

  datatype OrderType = Limit | MarketOrder

  /** price × quantity. */
  function Notional(price: real, quantity: real): real {
    price * quantity
  }

  /** amount × rate. */
  function Fee(amount: real, rate: real): real {
    amount * rate
  }

  function Min(x: real, y: real): real {
    if x <= y then x else y
  }

  function Max(x: real, y: real): real {
    if x <= y then y else x
  }
}
