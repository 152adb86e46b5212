/** The rows, messages and settings of the payment pipeline.  Identifiers are natural
    numbers, times are milliseconds, and amounts are integers in minor units. */
module Domain {

  datatype Option<+T> = None | Some(value: T)

  type pos = n: nat | 1 <= n witness 1

  datatype OrderStatus = Created | Paid | Cancelled | Refunded

  datatype PaymentStatus = Success | Failed | Pending | Refunded

  datatype ReconciliationState = Pending | Matched | Mismatched | Failed | DeadLettered

  datatype Reason = AmountMismatch | MissingOrder | DuplicatePayment | DelayedWebhook | StatusConflict

  datatype Order = Order(amount: int, currency: string, status: OrderStatus, createdAt: int)

  /** The body of a webhook once signature and schema checks have passed. */
  datatype Payload = Payload(
    gatewayId: nat, orderId: nat, amount: int, currency: string, status: PaymentStatus, occurredAt: int)

  datatype Event = Event(
    gatewayId: nat, orderId: Option<nat>, amount: int, currency: string, gatewayStatus: PaymentStatus,
    raw: Payload, receivedAt: int, state: ReconciliationState, attempts: nat, processedAt: Option<nat>)

  datatype Account = GatewayReceivable | MerchantPayable

  datatype Direction = Debit | Credit

  datatype Settlement = PendingSettlement | Settled(record: nat, at: nat)

  datatype Draft = Draft(account: Account, direction: Direction, amount: int, currency: string)

  datatype Entry = Entry(
    event: nat, order: nat, account: Account, direction: Direction, amount: int, currency: string,
    settlement: Settlement)

  datatype DeadLetter = DeadLetter(payload: Payload, attempts: nat)

  datatype MatchStatus = Matched | AmountMismatch | Unmatched

  datatype Row = Row(gatewayId: nat, amount: int, currency: string, settledAt: int)

  /** An uploaded file: its content hash, and the rows it parses to unless parsing fails. */
  datatype File = File(hash: nat, parsed: Option<seq<Row>>)

  datatype BatchStatus = Processing | Completed

  datatype Batch = Batch(status: BatchStatus, total: nat, matched: nat, mismatched: nat, unmatched: nat)

  datatype Record = Record(file: File, row: Row, status: MatchStatus, event: Option<nat>)

  datatype Config = Config(
    maxAttempts: pos, lockTtl: pos, batchSize: pos, delayThreshold: pos, idempotencyTtl: pos)
}
