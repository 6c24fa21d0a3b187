/**
 What each external call promises, written out on the rows, columns and errors themselves: a second account of the
 service, to hold the protocol's steps, the atomic machine and the service's methods to.
 */
module Promises {
  import opened Domain
  import opened TransactionTable
  import opened IdempotencyTable
  import opened LeaseLock
  import opened Protocol

  // ----- inserting a payment -----

  /** The columns a payment's row takes from the request. */
  predicate AsAsked(row: Transaction, input: Input) {
    && input.PayIn?
    && row.merchant == input.merchant && row.key == input.key && row.kind == input.kind
    && row.amount == input.amount && row.currency == input.currency
  }

  predicate Pristine(row: Transaction) {
    row.status == Pending && row.gatewayRef == None && row.failedReason == None && row.capturedAt == None
  }

  ghost predicate KeyUsed(rows: Rows, key: string) {
    exists t :: t in rows && rows[t].key == key
  }

  ghost predicate InsertPromise(rows: Rows, rows': Rows, input: Input, id: Id, fault: Fault, next: Pc)
    requires input.PayIn?
  {
    if fault == NotApplied then rows' == rows && next == Done(Err(Database))
    else if KeyUsed(rows, input.key) then rows' == rows && next == Done(Err(DuplicateIdempotencyKey))
    else
      && id !in rows && id in rows' && rows' - {id} == rows
      && rows'[id].id == id && AsAsked(rows'[id], input) && Pristine(rows'[id])
      && next == if fault == AckLost then Done(Err(Database)) else Calling(rows'[id])
  }

  // ----- reading under the lock -----

  predicate Owns(rows: Rows, input: Input)
    requires !input.PayIn?
  {
    input.txId in rows && rows[input.txId].merchant == input.merchant
  }

  ghost predicate AuthorizedReadPromise(rows: Rows, input: Input, next: Pc)
    requires !input.PayIn?
  {
    var owned := Owns(rows, input);
    && (next == Releasing(Err(TransactionNotFound)) <==> !owned)
    && (next == Releasing(Err(InvalidGatewayRef)) <==> owned && rows[input.txId].gatewayRef.None?)
    && (next == Releasing(Err(TransactionNotCapturable)) <==>
          owned && rows[input.txId].gatewayRef.Some? && rows[input.txId].status != Authorized)
    && (next.Calling? <==> owned && rows[input.txId].gatewayRef.Some? && rows[input.txId].status == Authorized)
    && (next.Calling? ==> next.tx == rows[input.txId])
  }

  ghost predicate RefundableReadPromise(rows: Rows, input: Input, next: Pc)
    requires !input.PayIn?
  {
    var owned := Owns(rows, input);
    && (next == Releasing(Err(RecordNotFound)) <==> !owned)
    && (next == Releasing(Err(TransactionAlreadyRefunded)) <==> owned && rows[input.txId].status == Refunded)
    && (next == Releasing(Err(TransactionNotRefundable)) <==>
          owned && rows[input.txId].status in {Pending, Authorized, Failed, Voided})
    && (next.Calling? <==> owned && rows[input.txId].status == Captured)
    && (next.Calling? ==> next.tx == rows[input.txId])
  }

  ghost predicate ReadPromise(rows: Rows, input: Input, dbFailed: bool, next: Pc)
    requires !input.PayIn?
  {
    if input.RefundIn? then
      if dbFailed then next == Releasing(Err(Database)) else RefundableReadPromise(rows, input, next)
    else
      if dbFailed then next == Releasing(Err(TransactionNotFound)) else AuthorizedReadPromise(rows, input, next)
  }

  /** The one error a request about a row it may not work on is refused with. */
  predicate MustRefuse(rows: Rows, input: Input, error: Error)
    requires !input.PayIn?
  {
    if !Owns(rows, input) then error == if input.RefundIn? then RecordNotFound else TransactionNotFound
    else
      var row := rows[input.txId];
      if input.RefundIn? then
        || (error == TransactionAlreadyRefunded && row.status == Refunded)
        || (error == TransactionNotRefundable && row.status in {Pending, Authorized, Failed, Voided})
      else
        || (error == InvalidGatewayRef && row.gatewayRef.None?)
        || (error == TransactionNotCapturable && row.gatewayRef.Some? && row.status != Authorized)
  }

  // ----- calling the gateway -----

  /** What the gateway is sent: the row's own amount, currency, order id and reference. */
  datatype Request =
    | AuthorizeRequest(amount: int, currency: string, orderId: Id)
    | CaptureRequest(ref: Option<string>, orderId: Id)
    | VoidRequest(ref: Option<string>, orderId: Id)
    | RefundRequest(ref: Option<string>, amount: int)

  predicate RequestPromise(input: Input, tx: Transaction, request: Request) {
    match input
    case PayIn(kind, _, _, amount, currency) =>
      if kind == AuthorizeCapture then request == AuthorizeRequest(amount, currency, tx.id)
      else request == CaptureRequest(tx.gatewayRef, tx.id)
    case CaptureIn(_, txId) => request == CaptureRequest(tx.gatewayRef, txId)
    case VoidIn(_, txId) => request == VoidRequest(tx.gatewayRef, txId)
    case RefundIn(_, _, _) => request == RefundRequest(tx.gatewayRef, tx.amount)
  }

  /** The columns an outcome of the gateway's is to write. */
  predicate PatchPromise(input: Input, response: Response, at: nat, patch: Patch) {
    match response
    case Declined(message) => input.RefundIn? || patch == Patch(Failed, None, Some(message), None)
    case Empty => input.RefundIn? || patch == Patch(Failed, None, Some("empty gateway response"), None)
    case Accept(ref) =>
      match input
      case PayIn(kind, _, _, _, _) =>
        patch.status == (if kind == AuthorizeCapture then Authorized else Captured)
        && patch.gatewayRef == Some(ref) && patch.failedReason == None && patch.capturedAt == None
      case CaptureIn(_, _) => patch == Patch(Captured, None, None, Some(at))
      case VoidIn(_, _) => patch == Patch(Voided, None, None, None)
      case RefundIn(_, _, _) => patch == Patch(Refunded, None, None, None)
  }

  predicate LoggedAs(input: Input, tx: Transaction, response: Response, call: Call) {
    && call.txId == tx.id && call.amount == tx.amount && (call.accepted <==> response.Accept?)
    && match input
       case PayIn(kind, _, _, amount, _) =>
         call.amount == amount && call.kind == if kind == AuthorizeCapture then AuthorizeCall else CaptureCall
       case CaptureIn(_, _) => call.kind == CaptureCall
       case VoidIn(_, _) => call.kind == VoidCall
       case RefundIn(_, _, _) => call.kind == RefundCall
  }

  /** A Refund that is turned down ends with the gateway's own error, or as rejected if there was no response at all. */
  predicate RefusedRefundPromise(response: Response, error: Error) {
    match response
    case Declined(message) => error == GatewayError(message)
    case Empty => error == GatewayRejected
    case Accept(_) => false
  }

  predicate WritingPromise(input: Input, tx: Transaction, response: Response, refundId: Id, at: nat, next: Pc) {
    && next.Writing? && next.tx == tx && PatchPromise(input, response, at, next.patch)
    && LoggedAs(input, tx, response, next.call)
    && match input
       case RefundIn(merchant, txId, _) =>
         response.Accept? && next.refund == Some(RefundRow(refundId, txId, merchant, tx.amount, response.ref))
       case _ => next.refund == None
  }

  predicate CallPromise(input: Input, tx: Transaction, response: Response, refundId: Id, at: nat, next: Pc) {
    if input.RefundIn? && !response.Accept? then
      next.Releasing? && next.reply.Err? && RefusedRefundPromise(response, next.reply.error)
    else WritingPromise(input, tx, response, refundId, at, next)
  }

  // ----- writing the status -----

  /** The row the update's query asks for. */
  predicate Hit(rows: Rows, input: Input, t: Id) {
    t in rows
    && match input
       case PayIn(_, _, _, _, _) => rows[t].status == Pending
       case CaptureIn(_, _) => rows[t].status == Authorized
       case VoidIn(_, _) => rows[t].status == Authorized
       case RefundIn(_, _, _) => rows[t].status == Captured
  }

  /** The written row: nil columns of the payload leave the stored value alone. */
  predicate Written(before: Transaction, after: Transaction, patch: Patch) {
    && SameIdentity(before, after) && after.status == patch.status
    && after.gatewayRef == (if patch.gatewayRef.Some? then patch.gatewayRef else before.gatewayRef)
    && after.failedReason == (if patch.failedReason.Some? then patch.failedReason else before.failedReason)
    && after.capturedAt == (if patch.capturedAt.Some? then patch.capturedAt else before.capturedAt)
  }

  ghost predicate UpdatePromise(rows: Rows, rows': Rows, input: Input, t: Id, patch: Patch, fault: Fault) {
    if fault != NotApplied && Hit(rows, input, t) then
      t in rows' && Written(rows[t], rows'[t], patch) && rows' - {t} == rows - {t}
    else rows' == rows
  }

  /** What the update's struct makes of the answer. */
  predicate WriteReplyPromise(config: Config, hit: bool, tx: Transaction, patch: Patch, reply: Reply) {
    && (if patch.status == Failed then reply.Rejected? else reply.Ok?)
    && reply.out
       == if hit then TxOutput(tx.id, Tx(patch.status))
          else TxOutput(NIL_ID, if config.fillsOnMiss then Tx(patch.status) else Blank)
  }

  /** Whether an answer is one a background goroutine saves, and under which key. */
  predicate SavedUnder(config: Config, input: Input, key: Id) {
    match input
    case PayIn(_, _, rawKey, _, _) => config.parse(rawKey) == Some(key)
    case RefundIn(_, _, idemKey) => idemKey == key
    case _ => false
  }

  predicate SavingPromise(config: Config, input: Input, out: Output, saving: Option<Saving>) {
    if input.CaptureIn? || input.VoidIn? then saving == None
    else saving.Some? && saving.value.response == out && SavedUnder(config, input, saving.value.key)
  }

  /** Payments are done with their answer, the others have their lock to give back first. */
  predicate Ends(input: Input, reply: Reply, next: Pc) {
    next == if input.PayIn? then Done(reply) else Releasing(reply)
  }

  ghost predicate WritePromise(config: Config, rows: Rows, th: Thread, fault: Fault, th': Thread)
    requires th.pc.Writing?
  {
    var input, tx, patch := th.input, th.pc.tx, th.pc.patch;
    if fault != NoFault then Ends(input, Err(Database), th'.pc)
    else if th.pc.refund.Some? then th'.pc == Recording(tx, th.pc.refund.value)
    else
      && Answered(th').Some? && WriteReplyPromise(config, Hit(rows, input, tx.id), tx, patch, Answered(th').value)
      && Ends(input, Answered(th').value, th'.pc) && SavingPromise(config, input, Answered(th').value.out, th'.saving)
  }

  // ----- recording a refund -----

  predicate RecordPromise(config: Config, th: Thread, fault: Fault, th': Thread)
    requires th.pc.Recording?
  {
    if fault != NoFault then th'.pc == Releasing(Err(Database))
    else
      var out := RefundOutput(th.pc.row.id, Processing);
      th'.pc == Releasing(Ok(out)) && SavingPromise(config, th.input, out, th'.saving)
  }

  // ----- looking up and saving a response -----

  predicate Hits(cache: Cache, key: Id, merchant: Id, at: nat) {
    key in cache && cache[key].merchant == merchant && at < cache[key].expires
  }

  /** A cached response read as the other operation's has lost its id. */
  predicate ReadAs(input: Input, response: Output, out: Output) {
    if input.RefundIn? <==> response.RefundOutput? then out == response
    else if input.RefundIn? then out == RefundOutput(NIL_ID, response.status)
    else out == TxOutput(NIL_ID, response.status)
  }

  ghost predicate LookupPromise(config: Config, cache: Cache, at: nat, input: Input, dbFailed: bool, next: Pc)
    requires input.PayIn? || input.RefundIn?
  {
    if input.PayIn? && config.parse(input.key).None? then next == Done(Err(MalformedKey))
    else
      var key := if input.PayIn? then config.parse(input.key).value else input.idemKey;
      if !dbFailed && Hits(cache, key, input.merchant, at) then
        next.Done? && next.reply.Replay? && ReadAs(input, cache[key].response, next.reply.out)
      else next == if input.PayIn? then Tokenize else Locking
  }

  predicate SavePromise(cache: Cache, cache': Cache, merchant: Id, saving: Saving, at: nat, applied: bool) {
    if applied && saving.key !in cache then
      cache' == cache[saving.key := CacheRow(merchant, saving.response, at + 24 * 60 * 60)]
    else cache' == cache
  }

  // ----- the lock -----

  predicate Taken(locks: Locks, key: Id, at: nat) {
    key in locks && at < locks[key].expires
  }

  /** The error a request that did not get the lock ends with. */
  predicate LockErrorPromise(config: Config, held: bool, fault: Fault, error: Error) {
    if fault != NoFault then error == LockStore
    else held && error == if config.nilIsError then RedisNil else DuplicateRequest
  }

  predicate AcquirePromise(config: Config, locks: Locks, locks': Locks, key: Id, token: Id, at: nat, fault: Fault,
                           th': Thread)
  {
    && locks' == (if fault != NotApplied && !Taken(locks, key, at) then locks[key := Lease(token, at + 5)] else locks)
    && (if fault == NoFault && !Taken(locks, key, at) then th'.pc == Reading && th'.lease == Some(Lease(token, at + 5))
        else th'.pc.Done? && th'.pc.reply.Err? && LockErrorPromise(config, Taken(locks, key, at), fault, th'.pc.reply.error))
  }

  predicate ReleasePromise(locks: Locks, locks': Locks, key: Id, token: Id, at: nat, applied: bool) {
    if applied && Taken(locks, key, at) && locks[key].token == token then locks' == locks - {key} else locks' == locks
  }
}
