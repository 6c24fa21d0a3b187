/**
 The specification: each payment operation on a transaction is one indivisible step that calls the gateway, writes
 the row and answers; nothing is ever in flight, locked or half recorded. It can be told to exempt some transactions:
 of those it promises no more than that what happens to them stays with them.
 */
module AtomicMachine {
  import opened Domain
  import opened TransactionTable
  import opened Protocol
  import opened Promises
  import opened Ledger

  /** What a request asked and what it was told. */
  datatype Exchange = Exchange(input: Input, reply: Reply)

  /** calls holds the gateway calls per transaction, lost those whose status write failed. */
  datatype Atomic = Atomic(
    config: Config, rows: Rows, refunds: seq<RefundRow>, calls: map<Id, seq<Call>>, lost: seq<Call>,
    answers: map<Rid, Exchange>)

  function Start(config: Config): Atomic {
    Atomic(config, map[], [], map[], [], map[])
  }

  datatype AtomicEvent =
    | Idle
    // the request's pending row appears, with an error answer when the insert was not acknowledged
    | Open(r: Rid, input: Input, id: Id, trouble: Option<Reply>)
    // one whole operation; lands and records say which of its writes happened, trouble how it failed to say so
    | Operate(r: Rid, input: Input, txId: Id, response: Response, at: nat, refundId: Id,
              lands: bool, records: bool, trouble: Option<Reply>)
    // an operation whose row does not allow it
    | Decline(r: Rid, input: Input, error: Error)
    // an answer that touches nothing: a repeated one, an error the row has no part in, or none at all
    | Answer(r: Rid, input: Input, reply: Reply)
    // a Capture, Void or Refund changes its exempt transaction somehow, and may be told something
    | Stray(r: Rid, input: Input, txId: Id, row: Transaction, calls: seq<Call>, refund: Option<RefundRow>,
            loss: Option<Call>, told: Option<Reply>)
    // a request about an exempt transaction is refused somehow
    | Excuse(r: Rid, input: Input, error: Error)

  /** The exchange is worth repeating to a request of the same merchant under the same key. */
  predicate Repeats(config: Config, earlier: Exchange, input: Input, out: Output) {
    && earlier.input.merchant == input.merchant
    && CacheKey(config, input).Some? && CacheKey(config, earlier.input) == CacheKey(config, input)
    && (earlier.reply.Ok? || earlier.reply.Rejected?) && out == Decoded(input, earlier.reply.out)
  }

  /**
   What a request may be told without its operation taking place. No refusal that depends on the row is among these:
   those come from Decline and Operate alone.
   */
  predicate Tellable(a: Atomic, input: Input, reply: Reply) {
    match reply
    case Ok(_) => false
    case Rejected(_) => false
    case Crashed => true
    case Replay(out) => exists q :: q in a.answers && Repeats(a.config, a.answers[q], input, out)
    case Err(error) =>
      match error
      case MalformedKey => input.PayIn? && a.config.parse(input.key).None?
      case TokenizeCard => input.PayIn?
      case DuplicateIdempotencyKey => input.PayIn? && KeyTaken(a.rows, input.key)
      // a panic of Charge as written leaves the pending row it inserted
      case NilDereference =>
        input.PayIn? && Dereferences(a.config, input) && exists t :: t in a.rows && AsAsked(a.rows[t], input) && Pristine(a.rows[t])
      case LockStore => !input.PayIn?
      case DuplicateRequest => !input.PayIn? && !a.config.nilIsError
      case RedisNil => !input.PayIn? && a.config.nilIsError
      // a read that the database failed, which getTxAuthorized reports as a missing transaction
      case TransactionNotFound => input.CaptureIn? || input.VoidIn?
      case Database => input.PayIn? || input.RefundIn?
      case _ => false
  }

  predicate Allowed(a: Atomic, ev: AtomicEvent) {
    match ev
    case Idle => true
    case Open(r, input, id, trouble) =>
      && input.PayIn? && id !in a.rows && id !in a.calls && !KeyTaken(a.rows, input.key)
      && r !in a.answers && (trouble.Some? ==> trouble.value == Err(Database))
    case Operate(r, input, txId, response, _, _, lands, records, trouble) =>
      && r !in a.answers && txId in a.rows && txId in a.calls
      && a.rows[txId].merchant == input.merchant && Hit(a.rows, input, txId)
      && (if input.PayIn? then AsAsked(a.rows[txId], input) && Pristine(a.rows[txId])
          else txId == input.txId && a.rows[txId].gatewayRef.Some?)
      && (trouble.Some? ==> trouble.value in {Err(Database), Crashed})
      && (trouble.None? && (!input.RefundIn? || response.Accept?) ==> lands && (input.RefundIn? ==> records))
      && (records ==> lands && input.RefundIn?) && (lands ==> !input.RefundIn? || response.Accept?)
    case Decline(r, input, error) => r !in a.answers && !input.PayIn? && MustRefuse(a.rows, input, error)
    case Answer(r, input, reply) => r !in a.answers && Tellable(a, input, reply)
    case Stray(r, input, txId, row, calls, refund, loss, _) =>
      && r !in a.answers && txId in a.rows && txId in a.calls
      && SameIdentity(a.rows[txId], row) && row.merchant == input.merchant
      && !input.PayIn? && txId == input.txId
      && (refund.Some? ==> input.RefundIn? && refund.value.txId == txId && refund.value.merchant == row.merchant
                           && refund.value.amount == row.amount)
      && (loss.Some? ==> loss.value.txId == txId)
    case Excuse(r, input, _) => r !in a.answers && !input.PayIn?
  }

  /** Only exempt transactions may stray. */
  ghost predicate Permitted(exempt: iset<Id>, ev: AtomicEvent) {
    match ev
    case Stray(_, _, txId, _, _, _, _, _) => txId in exempt
    case Excuse(_, input, _) => !input.PayIn? ==> input.txId in exempt
    case _ => true
  }

  function Success(ev: AtomicEvent): Reply
    requires ev.Operate?
  {
    if !ev.input.RefundIn? then
      var patch := PatchFor(ev.input, ev.response, ev.at);
      UpdateReply(patch, TxOutput(ev.txId, Tx(patch.status)))
    else
      match ev.response
      case Accept(_) => Ok(RefundOutput(ev.refundId, Processing))
      case Declined(message) => Err(GatewayError(message))
      case Empty => Err(GatewayRejected)
  }

  function AtomicStep(a: Atomic, ev: AtomicEvent): Atomic
    requires Allowed(a, ev)
  {
    match ev
    case Idle => a
    case Open(r, input, id, trouble) =>
      a.(rows := a.rows[id := NewRow(id, input)], calls := a.calls[id := []],
         answers := if trouble.Some? then a.answers[r := Exchange(input, trouble.value)] else a.answers)
    case Operate(r, input, txId, response, at, refundId, lands, records, trouble) =>
      var row := a.rows[txId];
      var call := Call(KindOf(input), txId, row.amount, response.Accept?);
      Atomic(
        a.config,
        if lands then a.rows[txId := Patched(row, PatchFor(input, response, at))] else a.rows,
        if records && response.Accept? then a.refunds + [RefundRow(refundId, txId, row.merchant, row.amount, response.ref)]
        else a.refunds,
        a.calls[txId := a.calls[txId] + [call]],
        if lands || (input.RefundIn? && !response.Accept?) then a.lost else a.lost + [call],
        a.answers[r := Exchange(input, if trouble.Some? then trouble.value else Success(ev))])
    case Decline(r, input, error) => a.(answers := a.answers[r := Exchange(input, Err(error))])
    case Answer(r, input, reply) => a.(answers := a.answers[r := Exchange(input, reply)])
    case Stray(r, input, txId, row, calls, refund, loss, told) =>
      Atomic(
        a.config, a.rows[txId := row], if refund.Some? then a.refunds + [refund.value] else a.refunds,
        a.calls[txId := calls], if loss.Some? then a.lost + [loss.value] else a.lost,
        if told.Some? then a.answers[r := Exchange(input, told.value)] else a.answers)
    case Excuse(r, input, error) => a.(answers := a.answers[r := Exchange(input, Err(error))])
  }

  // ----- what the specification promises by itself -----

  /** A transaction's accepted calls: in number, what its row testifies to plus the lost ones; if none was lost, in order too. */
  ghost predicate RowTold(row: Transaction, calls: seq<Call>, lost: seq<Call>, t: Id) {
    && row.id == t && RowOk(row)
    && (Lossless(lost, t) ==> Accepted(calls) == Entries(row))
    && (forall kind :: Count(calls, kind, t) == Count(Entries(row), kind, t) + Count(lost, kind, t))
  }

  ghost predicate Told(a: Atomic, exempt: iset<Id>) {
    && a.rows.Keys == a.calls.Keys
    && (forall i :: 0 <= i < |a.lost| ==> a.lost[i].txId in a.rows)
    && (forall t :: t in a.rows && t !in exempt ==> RowTold(a.rows[t], a.calls[t], a.lost, t))
  }

  lemma OperatedRow(row: Transaction, input: Input, response: Response, at: nat)
    requires RowOk(row) && row.status == GuardOf(input) && (input.PayIn? ==> row.kind == input.kind)
    requires !input.RefundIn? || response.Accept?
    ensures var next := Patched(row, PatchFor(input, response, at));
            && RowOk(next) && next.id == row.id
            && Entries(next)
               == Entries(row) + if response.Accept? then [Call(KindOf(input), row.id, row.amount, true)] else []
  {
  }

  lemma CallCounted(row: Transaction, next: Transaction, calls: seq<Call>, lost: seq<Call>, call: Call, lands: bool,
                    kind: CallKind)
    requires Count(calls, kind, call.txId) == Count(Entries(row), kind, call.txId) + Count(lost, kind, call.txId)
    requires if lands then Entries(next) == Entries(row) + (if call.accepted then [call] else []) else next == row
    ensures Count(calls + [call], kind, call.txId)
            == Count(Entries(next), kind, call.txId) + Count(if lands then lost else lost + [call], kind, call.txId)
    ensures !call.accepted && !lands ==>
              Count(calls + [call], kind, call.txId) == Count(Entries(next), kind, call.txId) + Count(lost, kind, call.txId)
  {
    hide Entries, Count;
    CountAppend(calls, call, kind, call.txId);
    CountAppend(lost, call, kind, call.txId);
    CountAppend(Entries(row), call, kind, call.txId);
    assert Entries(row) + [] == Entries(row);
  }

  /** A call whose write lands is told by the row; one whose write is lost is told by the lost calls. */
  lemma CallTold(row: Transaction, next: Transaction, calls: seq<Call>, lost: seq<Call>, call: Call, lands: bool, t: Id)
    requires RowTold(row, calls, lost, t) && call.txId == t && next.id == t && RowOk(next)
    requires if lands then Entries(next) == Entries(row) + (if call.accepted then [call] else []) else next == row
    ensures RowTold(next, calls + [call], if lands then lost else lost + [call], t)
    ensures !call.accepted && !lands ==> RowTold(next, calls + [call], lost, t)
  {
    hide Entries, Count, RowOk, Accepted, Lossless;
    AcceptedAppend(calls, call);
    LosslessAppend(lost, call, t);
    assert Entries(row) + [] == Entries(row);
    forall kind
      ensures Count(calls + [call], kind, t)
              == Count(Entries(next), kind, t) + Count(if lands then lost else lost + [call], kind, t)
      ensures !call.accepted && !lands ==>
                Count(calls + [call], kind, t) == Count(Entries(next), kind, t) + Count(lost, kind, t)
    {
      CallCounted(row, next, calls, lost, call, lands, kind);
    }
  }

  lemma OtherTold(row: Transaction, calls: seq<Call>, lost: seq<Call>, call: Call, t: Id)
    requires RowTold(row, calls, lost, t) && call.txId != t
    ensures RowTold(row, calls, lost + [call], t)
  {
    LosslessAppend(lost, call, t);
    forall kind ensures Count(lost + [call], kind, t) == Count(lost, kind, t) {
      CountAppend(lost, call, kind, t);
    }
  }

  lemma OperateTold(a: Atomic, ev: AtomicEvent, t: Id)
    requires Allowed(a, ev) && ev.Operate? && t in a.rows && t in a.calls && RowTold(a.rows[t], a.calls[t], a.lost, t)
    ensures var b := AtomicStep(a, ev); t in b.rows && t in b.calls && RowTold(b.rows[t], b.calls[t], b.lost, t)
  {
    hide Tellable;
    var row := a.rows[ev.txId];
    var call := Call(KindOf(ev.input), ev.txId, row.amount, ev.response.Accept?);
    if t == ev.txId {
      if ev.lands {
        OperatedRow(row, ev.input, ev.response, ev.at);
      }
      CallTold(row, AtomicStep(a, ev).rows[t], a.calls[t], a.lost, call, ev.lands, t);
    } else {
      OtherTold(a.rows[t], a.calls[t], a.lost, call, t);
    }
    hide RowTold, RowOk;
  }

  lemma OpenTold(row: Transaction, lost: seq<Call>)
    requires row.status == Pending && RowOk(row) && forall i :: 0 <= i < |lost| ==> lost[i].txId != row.id
    ensures RowTold(row, [], lost, row.id)
  {
    forall kind ensures Count(lost, kind, row.id) == 0 {
      CountNone(lost, kind, row.id);
    }
  }

  lemma ToldStep(a: Atomic, ev: AtomicEvent, exempt: iset<Id>)
    requires Told(a, exempt) && Allowed(a, ev) && Permitted(exempt, ev)
    ensures Told(AtomicStep(a, ev), exempt)
  {
    hide Tellable, RowTold, Count, Entries;
    if ev.Operate? {
      forall t | t in a.rows && t !in exempt
        ensures var b := AtomicStep(a, ev); t in b.rows && t in b.calls && RowTold(b.rows[t], b.calls[t], b.lost, t)
      {
        OperateTold(a, ev, t);
      }
    } else if ev.Open? {
      OpenTold(NewRow(ev.id, ev.input), a.lost);
    } else if ev.Stray? && ev.loss.Some? {
      forall t | t in a.rows && t !in exempt ensures RowTold(a.rows[t], a.calls[t], a.lost + [ev.loss.value], t) {
        OtherTold(a.rows[t], a.calls[t], a.lost, ev.loss.value, t);
      }
    }
  }

  /** The state the machine reaches, if every event is allowed where it happens. */
  ghost function AtomicRun(config: Config, exempt: iset<Id>, evs: seq<AtomicEvent>): Option<Atomic> {
    if evs == [] then Some(Start(config))
    else
      var last := evs[|evs| - 1];
      match AtomicRun(config, exempt, evs[..|evs| - 1])
      case None => None
      case Some(a) => if Allowed(a, last) && Permitted(exempt, last) then Some(AtomicStep(a, last)) else None
  }

  /** In every run of the atomic machine the rows and the lost calls account for every accepted call but on the exempt. */
  lemma {:induction false} RunTold(config: Config, exempt: iset<Id>, evs: seq<AtomicEvent>)
    ensures AtomicRun(config, exempt, evs).Some? ==> Told(AtomicRun(config, exempt, evs).value, exempt)
  {
    if evs != [] {
      hide Told, Allowed, Permitted, AtomicStep;
      RunTold(config, exempt, evs[..|evs| - 1]);
      var before := AtomicRun(config, exempt, evs[..|evs| - 1]);
      if before.Some? && Allowed(before.value, evs[|evs| - 1]) && Permitted(exempt, evs[|evs| - 1]) {
        ToldStep(before.value, evs[|evs| - 1], exempt);
      }
    } else {
      assert Told(Start(config), exempt);
    }
  }
}
