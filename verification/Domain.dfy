/** The rows and values that the executor, the scanner and the API share. */
module Domain {

  datatype Option<+T> = None | Some(value: T)

  type IntentId = nat
  type BotId = nat
  type UserId = nat
  type OrderId = nat
  type RowId = nat
  type WorkerId = nat

  datatype Side = Buy | Sell

  datatype BotMode = Paper | Live

  datatype OrderStatus =
    | Pending
    | Submitted
    | Accepted
    | Rejected
    | Cancelled
    | Filled
    | PartiallyFilled
    | Failed
  {
    /** The statuses that `get_open_orders` selects. */
    predicate Open() {
      Pending? || Submitted? || Accepted? || PartiallyFilled?
    }
  }

  datatype OrderIntent = OrderIntent(
    id: IntentId,
    bot: BotId,
    side: Side,
    quantity: real,
    price: Option<real>)

  datatype IntentStatus = Validated | Refused

  /** An order row. Its idempotency key is the id of its intent. */
  datatype Order = Order(
    id: OrderId,
    intent: IntentId,
    bot: BotId,
    symbol: string,
    side: Side,
    quantity: real,
    price: Option<real>,
    status: OrderStatus,
    exchangeId: Option<string>)

  datatype ExecutionStatus = ExecutionPending | ExecutionCompleted | ExecutionFailed

  datatype Execution = Execution(
    orderId: OrderId,
    filledQuantity: real,
    averagePrice: real,
    status: ExecutionStatus)

  datatype BotRow = BotRow(mode: BotMode, exchange: Option<string>, symbol: string, paused: bool)
}
