/** The payment protocol: every in-flight request over the shared tables, broken at each external call. */
module Protocol {
  import opened Domain
  import opened TransactionTable
  import opened IdempotencyTable
  import opened LeaseLock

  type Rid = nat

  datatype CallKind = AuthorizeCall | CaptureCall | VoidCall | RefundCall

  /** One call the gateway received, and whether it took effect. */
  datatype Call = Call(kind: CallKind, txId: Id, amount: int, accepted: bool)

  /** What the gateway returns: a response, a nil response, or an error. */
  datatype Response = Accept(ref: string) | Empty | Declined(message: string)

  datatype Input =
    | PayIn(kind: PaymentType, merchant: Id, key: string, amount: int, currency: string)
    | CaptureIn(merchant: Id, txId: Id)
    | VoidIn(merchant: Id, txId: Id)
    | RefundIn(merchant: Id, txId: Id, idemKey: Id)

  /** Where a request stands, with the local variables it still needs. */
  datatype Pc =
    | Lookup
    | Tokenize
    | Insert
    | Locking
    | Reading
    | Calling(tx: Transaction)
    | Writing(tx: Transaction, patch: Patch, call: Call, refund: Option<RefundRow>)
    | Recording(tx: Transaction, row: RefundRow)
    | Releasing(reply: Reply)
    | Done(reply: Reply)

  /** The response a background goroutine is about to cache. */
  datatype Saving = Saving(key: Id, response: Output)

  /** A request; lease is what Redis granted it and it has not given back, expired or not. */
  datatype Thread = Thread(input: Input, pc: Pc, lease: Option<Lease>, saving: Option<Saving>)

  /**
   parse is uuid.MustParse, None where it panics; chargePatched says whether Charge skips the nil dereference,
   nilIsError whether the Redis client reports a held key as an error of its own, fillsOnMiss whether the ORM fills
   the struct an update returns with the written columns although no row matched.
   */
  datatype Config = Config(parse: string -> Option<Id>, chargePatched: bool, nilIsError: bool, fillsOnMiss: bool)

  /**
   Everything requests share. log is every gateway call in order; failed and missed are the calls whose
   status write never happened, because the database failed or the request died, or because it matched no row.
   */
  datatype Store = Store(
    config: Config, now: nat, used: set<Id>,
    rows: Rows, refunds: seq<RefundRow>, cache: Cache, locks: Locks,
    log: seq<Call>, failed: seq<Call>, missed: seq<Call>)

  datatype State = State(store: Store, threads: map<Rid, Thread>)

  function Init(config: Config): State {
    State(Store(config, 0, {NIL_ID}, map[], [], map[], map[], [], [], []), map[])
  }

  datatype Event =
    | Tick(delta: nat)
    | BeginE(r: Rid, input: Input)
    | LookupE(r: Rid, dbFailed: bool)
    | TokenizeE(r: Rid, ok: bool)
    | InsertE(r: Rid, id: Id, fault: Fault)
    | AcquireE(r: Rid, token: Id, fault: Fault)
    | ReadE(r: Rid, dbFailed: bool)
    | CallE(r: Rid, response: Response, refundId: Id)
    | WriteE(r: Rid, fault: Fault)
    | RecordE(r: Rid, fault: Fault)
    | ReleaseE(r: Rid, applied: bool)
    | SaveE(r: Rid, applied: bool)
    | CrashE(r: Rid)

  // ----- what each operation asks of the gateway and of the row -----

  function KindOf(input: Input): CallKind {
    match input
    case PayIn(kind, _, _, _, _) => if kind == AuthorizeCapture then AuthorizeCall else CaptureCall
    case CaptureIn(_, _) => CaptureCall
    case VoidIn(_, _) => VoidCall
    case RefundIn(_, _, _) => RefundCall
  }

  /** The status the conditional update demands. */
  function GuardOf(input: Input): Status {
    match input
    case PayIn(_, _, _, _, _) => Pending
    case CaptureIn(_, _) => Authorized
    case VoidIn(_, _) => Authorized
    case RefundIn(_, _, _) => Captured
  }

  function PatchFor(input: Input, response: Response, now: nat): Patch {
    match response
    case Declined(message) => Patch(Failed, None, Some(message), None)
    case Empty => Patch(Failed, None, Some("empty gateway response"), None)
    case Accept(ref) =>
      match input
      case PayIn(kind, _, _, _, _) =>
        Patch(if kind == AuthorizeCapture then Authorized else Captured, Some(ref), None, None)
      case CaptureIn(_, _) => Patch(Captured, None, None, Some(now))
      case VoidIn(_, _) => Patch(Voided, None, None, None)
      case RefundIn(_, _, _) => Patch(Refunded, None, None, None)
  }

  /** The read under the lock either yields the row to work on or ends the request. */
  datatype Decision = Proceed(tx: Transaction) | Refuse(error: Error)

  function GetTxAuthorized(found: Option<Transaction>): Decision {
    match found
    case None => Refuse(TransactionNotFound)
    case Some(tx) =>
      if tx.gatewayRef.None? then Refuse(InvalidGatewayRef)
      else if tx.status != Authorized then Refuse(TransactionNotCapturable)
      else Proceed(tx)
  }

  function GetTxRefundable(found: Option<Transaction>): Decision {
    match found
    case None => Refuse(RecordNotFound)
    case Some(tx) =>
      if tx.status == Refunded then Refuse(TransactionAlreadyRefunded)
      else if tx.status != Captured then Refuse(TransactionNotRefundable)
      else Proceed(tx)
  }

  function Decide(rows: Rows, input: Input): Decision
    requires !input.PayIn?
  {
    var found := Found(rows, input.txId, input.merchant);
    match input
    case CaptureIn(_, _) => GetTxAuthorized(found)
    case VoidIn(_, _) =>
      var d := GetTxAuthorized(found);
      if d.Proceed? && d.tx.status == Voided then Refuse(TransactionAlreadyVoided) else d
    case RefundIn(_, _, _) => GetTxRefundable(found)
  }

  /** Whether the call to the gateway reads *tx.GatewayRef. */
  predicate Dereferences(config: Config, input: Input) {
    match input
    case PayIn(kind, _, _, _, _) => kind == DirectCharge && !config.chargePatched
    case _ => true
  }

  /** A cached response unmarshalled into the output struct of the asking operation. */
  function Decoded(input: Input, response: Output): Output {
    match response
    case TxOutput(id, status) => if input.RefundIn? then RefundOutput(NIL_ID, status) else response
    case RefundOutput(id, status) => if input.RefundIn? then response else TxOutput(NIL_ID, status)
  }

  function CacheKey(config: Config, input: Input): Option<Id> {
    match input
    case PayIn(_, _, key, _, _) => config.parse(key)
    case RefundIn(_, _, idemKey) => Some(idemKey)
    case _ => None
  }

  /** After its last database write an operation that took the lock still has to release it. */
  function Finish(input: Input, reply: Reply): Pc {
    if input.PayIn? then Done(reply) else Releasing(reply)
  }

  /** The answer of a request that has one; what is left to do then changes it no more. */
  function Answered(th: Thread): Option<Reply> {
    if th.pc.Done? || th.pc.Releasing? then Some(th.pc.reply) else None
  }

  // ----- the steps of one request -----

  /** The shared store and the moving request after one of its steps. */
  datatype After = After(store: Store, th: Thread)

  /** The response a success leaves to a background goroutine. */
  function Background(config: Config, input: Input, out: Output): Option<Saving> {
    match CacheKey(config, input) case Some(key) => Some(Saving(key, out)) case None => None
  }

  /** Ends a request with a success that is also worth caching. */
  function Succeed(g: Store, th: Thread, reply: Reply, out: Output): After {
    After(g, th.(pc := Finish(th.input, reply), saving := Background(g.config, th.input, out)))
  }

  function LookupStep(g: Store, th: Thread, dbFailed: bool): After {
    match CacheKey(g.config, th.input)
    case None => After(g, th.(pc := Done(Err(MalformedKey))))
    case Some(key) =>
      var hit := if dbFailed then None else Cached(g.cache, key, th.input.merchant, g.now);
      After(g, th.(pc := if hit.Some? then Done(Replay(Decoded(th.input, hit.value)))
                         else if th.input.PayIn? then Tokenize else Locking))
  }

  function NewRow(id: Id, input: Input): Transaction
    requires input.PayIn?
  {
    Transaction(id, input.merchant, input.key, input.kind, input.amount, input.currency, Pending, None, None, None)
  }

  function InsertStep(g: Store, th: Thread, id: Id, fault: Fault): After
    requires th.input.PayIn?
  {
    var row := NewRow(id, th.input);
    var error := InsertError(g.rows, row, fault);
    After(g.(used := g.used + {id}, rows := Inserted(g.rows, row, fault)),
          th.(pc := if error.Some? then Done(Err(error.value)) else Calling(row)))
  }

  /** What a request is told that found the lock held. */
  function HeldError(config: Config): Error {
    if config.nilIsError then RedisNil else DuplicateRequest
  }

  function AcquireStep(g: Store, th: Thread, token: Id, fault: Fault): After
    requires !th.input.PayIn?
  {
    var lease := Lease(token, g.now + LOCK_TTL);
    var free := !Live(g.locks, th.input.txId, g.now);
    var g1 := g.(used := g.used + {token});
    if fault == NotApplied then After(g1, th.(pc := Done(Err(LockStore))))
    else
      After(g1.(locks := Acquired(g.locks, th.input.txId, lease, g.now)),
            th.(pc := if fault == AckLost then Done(Err(LockStore))
                      else if free then Reading else Done(Err(HeldError(g.config))),
                lease := if free then Some(lease) else None))
  }

  function ReadStep(g: Store, th: Thread, dbFailed: bool): After
    requires !th.input.PayIn?
  {
    After(g, th.(pc := if dbFailed then Releasing(Err(if th.input.RefundIn? then Database else TransactionNotFound))
                       else match Decide(g.rows, th.input)
                            case Refuse(error) => Releasing(Err(error))
                            case Proceed(tx) => Calling(tx)))
  }

  function RefundErrorOf(response: Response): Error {
    if response.Declined? then GatewayError(response.message) else GatewayRejected
  }

  function CallStep(g: Store, th: Thread, response: Response, refundId: Id): After
    requires th.pc.Calling?
  {
    var input, tx := th.input, th.pc.tx;
    if Dereferences(g.config, input) && tx.gatewayRef.None? then After(g, th.(pc := Finish(input, Err(NilDereference))))
    else
      var call := Call(KindOf(input), tx.id, tx.amount, response.Accept?);
      var g1 := g.(log := g.log + [call]);
      var patch := PatchFor(input, response, g.now);
      if !input.RefundIn? then After(g1, th.(pc := Writing(tx, patch, call, None)))
      else if !response.Accept? then After(g1, th.(pc := Releasing(Err(RefundErrorOf(response)))))
      else
        var row := RefundRow(refundId, tx.id, input.merchant, tx.amount, response.ref);
        After(g1.(used := g.used + {refundId}), th.(pc := Writing(tx, patch, call, Some(row))))
  }

  /** What Authorize, Capture, Charge and Void alike read off the struct an update hands back. */
  function UpdateOutput(data: Returned): Output {
    TxOutput(data.id, data.status)
  }

  function UpdateReply(patch: Patch, out: Output): Reply {
    if patch.status == Failed then Rejected(out) else Ok(out)
  }

  function WriteStep(g: Store, th: Thread, fault: Fault): After
    requires th.pc.Writing?
  {
    var input := th.input;
    var Writing(tx, patch, call, refund) := th.pc;
    if fault == NotApplied then After(g.(failed := g.failed + [call]), th.(pc := Finish(input, Err(Database))))
    else
      var hit := Matches(g.rows, tx.id, GuardOf(input));
      var rows := Updated(g.rows, tx.id, GuardOf(input), patch);
      var g1 := g.(rows := rows, missed := if hit then g.missed else g.missed + [call]);
      if fault == AckLost then After(g1, th.(pc := Finish(input, Err(Database))))
      else if refund.Some? then After(g1, th.(pc := Recording(tx, refund.value)))
      else
        var out := UpdateOutput(ReturnedBy(g.rows, tx.id, GuardOf(input), patch, g.config.fillsOnMiss));
        Succeed(g1, th, UpdateReply(patch, out), out)
  }

  function RecordStep(g: Store, th: Thread, fault: Fault): After
    requires th.pc.Recording?
  {
    var g1 := g.(refunds := if fault == NotApplied then g.refunds else g.refunds + [th.pc.row]);
    var out := RefundOutput(th.pc.row.id, Processing);
    if fault != NoFault then After(g1, th.(pc := Finish(th.input, Err(Database)))) else Succeed(g1, th, Ok(out), out)
  }

  function ReleaseStep(g: Store, th: Thread, applied: bool): After
    requires !th.input.PayIn? && th.pc.Releasing?
  {
    var done := th.(pc := Done(th.pc.reply));
    if !applied || th.lease.None? then After(g, done)
    else After(g.(locks := Released(g.locks, th.input.txId, th.lease.value.token, g.now)), done.(lease := None))
  }

  function SaveStep(g: Store, th: Thread, applied: bool): After
    requires th.saving.Some?
  {
    var row := CacheRow(th.input.merchant, th.saving.value.response, g.now + DAY);
    After(g.(cache := if applied then Stored(g.cache, th.saving.value.key, row) else g.cache), th.(saving := None))
  }

  /** A request can die anywhere; nothing releases its lock, and an answer already computed stays computed. */
  function CrashStep(g: Store, th: Thread): After {
    match th.pc
    case Writing(_, _, call, _) => After(g.(failed := g.failed + [call]), th.(pc := Done(Crashed)))
    case Releasing(reply) => After(g, th.(pc := Done(reply)))
    case _ => After(g, th.(pc := Done(Crashed)))
  }

  /** Whether the request can take the step; a new UUID is one that was never used. */
  predicate Ready(g: Store, th: Thread, e: Event) {
    match e
    case Tick(_) => false
    case BeginE(_, _) => false
    case LookupE(_, _) => th.pc.Lookup?
    case TokenizeE(_, _) => th.pc.Tokenize?
    case InsertE(_, id, _) => th.pc.Insert? && th.input.PayIn? && id !in g.used
    case AcquireE(_, token, _) => th.pc.Locking? && !th.input.PayIn? && token !in g.used
    case ReadE(_, _) => th.pc.Reading? && !th.input.PayIn?
    case CallE(_, _, refundId) => th.pc.Calling? && refundId !in g.used
    case WriteE(_, _) => th.pc.Writing?
    case RecordE(_, _) => th.pc.Recording?
    case ReleaseE(_, _) => th.pc.Releasing? && !th.input.PayIn?
    case SaveE(_, _) => th.saving.Some?
    case CrashE(_) => !th.pc.Done?
  }

  function Act(g: Store, th: Thread, e: Event): After
    requires Ready(g, th, e)
  {
    match e
    case LookupE(_, dbFailed) => LookupStep(g, th, dbFailed)
    case TokenizeE(_, ok) => After(g, th.(pc := if ok then Insert else Done(Err(TokenizeCard))))
    case InsertE(_, id, fault) => InsertStep(g, th, id, fault)
    case AcquireE(_, token, fault) => AcquireStep(g, th, token, fault)
    case ReadE(_, dbFailed) => ReadStep(g, th, dbFailed)
    case CallE(_, response, refundId) => CallStep(g, th, response, refundId)
    case WriteE(_, fault) => WriteStep(g, th, fault)
    case RecordE(_, fault) => RecordStep(g, th, fault)
    case ReleaseE(_, applied) => ReleaseStep(g, th, applied)
    case SaveE(_, applied) => SaveStep(g, th, applied)
    case CrashE(_) => CrashStep(g, th)
  }

  // ----- the steps of the system -----

  function Entry(input: Input): Pc {
    if input.PayIn? || input.RefundIn? then Lookup else Locking
  }

  /** Whether an existing request takes the step the event names. */
  predicate Moves(s: State, e: Event) {
    !e.Tick? && e.r in s.threads && Ready(s.store, s.threads[e.r], e)
  }

  /** One step of the system; an event that cannot happen changes nothing. */
  function Step(s: State, e: Event): State {
    if e.Tick? then s.(store := s.store.(now := s.store.now + e.delta))
    else if e.BeginE? && e.r !in s.threads then s.(threads := s.threads[e.r := Thread(e.input, Entry(e.input), None, None)])
    else if Moves(s, e) then
      var after := Act(s.store, s.threads[e.r], e);
      State(after.store, s.threads[e.r := after.th])
    else s
  }

  /** The state after any sequence of events. Every theorem about runs is about every such sequence. */
  function Run(config: Config, es: seq<Event>): State {
    if es == [] then Init(config) else Step(Run(config, es[..|es| - 1]), es[|es| - 1])
  }
}
