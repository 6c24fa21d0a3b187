/** The entities the payment service stores and returns. */
module Domain {

  datatype Option<+T> = None | Some(value: T)

  /** A UUID. The zero UUID is what an unset identifier reads as. */
  type Id = nat

  const NIL_ID: Id := 0

  datatype PaymentType = DirectCharge | AuthorizeCapture

  datatype Status = Pending | Authorized | Captured | Failed | Voided | Refunded

  /** One row of the transactions table, without the columns nothing here reads. */
  datatype Transaction = Transaction(
    id: Id, merchant: Id, key: string, kind: PaymentType, amount: int, currency: string,
    status: Status, gatewayRef: Option<string>, failedReason: Option<string>, capturedAt: Option<nat>)

  /** The columns an update writes; an absent optional column keeps its stored value. */
  datatype Patch = Patch(
    status: Status, gatewayRef: Option<string>, failedReason: Option<string>, capturedAt: Option<nat>)

  function Override<T>(stored: Option<T>, written: Option<T>): Option<T> {
    if written.Some? then written else stored
  }

  function Patched(row: Transaction, p: Patch): Transaction {
    row.(status := p.status,
         gatewayRef := Override(row.gatewayRef, p.gatewayRef),
         failedReason := Override(row.failedReason, p.failedReason),
         capturedAt := Override(row.capturedAt, p.capturedAt))
  }

  /** One row of the refunds table; every row is inserted in status processing. */
  datatype RefundRow = RefundRow(id: Id, txId: Id, merchant: Id, amount: int, ref: string)

  /** The status field of an output: blank in a fresh struct, otherwise a transaction or refund status. */
  datatype Label = Blank | Tx(status: Status) | Processing

  /** The response structs: transaction_id with status, or refund_id with status. */
  datatype Output = TxOutput(id: Id, status: Label) | RefundOutput(id: Id, status: Label)

  datatype Error =
    | DuplicateIdempotencyKey | InvalidGatewayRef | TokenizeCard | TransactionNotCapturable
    | TransactionNotFound | RecordNotFound | DuplicateRequest | TransactionAlreadyVoided
    | TransactionAlreadyRefunded | TransactionNotRefundable | GatewayRejected
    | GatewayError(message: string) | Database | LockStore | RedisNil | NilDereference | MalformedKey

  /** What a request answers: an output, an output with the gateway-rejected error, a cached output, or an error. */
  datatype Reply = Ok(out: Output) | Rejected(out: Output) | Replay(out: Output) | Err(error: Error) | Crashed

  /** How a single database or Redis command can go wrong. */
  datatype Fault = NoFault | NotApplied | AckLost

  /** Which status may replace which in a row of the given payment type. */
  predicate Edge(kind: PaymentType, a: Status, b: Status) {
    match a
    case Pending => b == Failed || b == (if kind == AuthorizeCapture then Authorized else Captured)
    case Authorized => kind == AuthorizeCapture && (b == Captured || b == Voided || b == Failed)
    case Captured => b == Refunded
    case _ => false
  }

  function Rank(a: Status): nat {
    match a
    case Pending => 0
    case Authorized => 1
    case Captured => 2
    case _ => 3
  }

  /** What every stored row agrees on, whatever requests did to it. */
  predicate RowOk(row: Transaction) {
    && (row.status in {Authorized, Captured, Voided, Refunded} ==> row.gatewayRef.Some?)
    && (row.status == Pending ==> row.gatewayRef.None?)
    && (row.failedReason.Some? <==> row.status == Failed)
    && (row.kind == AuthorizeCapture ==> (row.capturedAt.Some? <==> row.status in {Captured, Refunded}))
    && (row.kind == DirectCharge ==>
          row.capturedAt.None? && row.status !in {Authorized, Voided} && (row.status == Failed ==> row.gatewayRef.None?))
  }

  /** The columns written once, at insert. */
  predicate SameIdentity(a: Transaction, b: Transaction) {
    a.id == b.id && a.merchant == b.merchant && a.key == b.key && a.kind == b.kind
    && a.amount == b.amount && a.currency == b.currency
  }

  /** One row before and after one step of anybody. */
  predicate Evolves(a: Transaction, b: Transaction) {
    || a == b
    || (SameIdentity(a, b) && Edge(a.kind, a.status, b.status)
        && (a.gatewayRef.Some? || b.status == Failed ==> b.gatewayRef == a.gatewayRef)
        && (a.capturedAt.Some? ==> b.capturedAt == a.capturedAt))
  }
}
