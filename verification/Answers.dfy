/** What an operation answers is true of the stored rows, in every run; only a Capture or Void can answer with nothing. */
module Answers {
  import opened Domain
  import opened TransactionTable
  import opened Protocol
  import opened Promises
  import opened Safety
  import opened Caching
  import opened IdempotencyTable
  import opened Leases
  import Lifecycle

  /** The status an operation answers when the gateway accepts. */
  function TargetOf(input: Input): Status {
    PatchFor(input, Accept(""), 0).status
  }

  /** The statuses a row has had, read off its columns. */
  function Passed(row: Transaction): set<Status> {
    {Pending, row.status}
    + (if row.kind == AuthorizeCapture && row.gatewayRef.Some? then {Authorized} else {})
    + (if row.status == Refunded then {Captured} else {})
  }

  /** A success or rejection names the row of the request, in a status that row had; a refund names its stored row. */
  ghost predicate OutputTrue(g: Store, input: Input, out: Output, status: Status) {
    if input.RefundIn? then
      out.RefundOutput? && out.status == Processing && RefundStored(g.refunds, out.id, input.txId, input.merchant)
    else
      && out.TxOutput? && out.id in g.rows && g.rows[out.id].merchant == input.merchant
      && out.status == Tx(status) && status in Passed(g.rows[out.id])
      && (if input.PayIn? then AsAsked(g.rows[out.id], input) else out.id == input.txId)
  }

  ghost predicate Inserted(rows: Rows, input: Input)
    requires input.PayIn?
  {
    exists t :: t in rows && AsAsked(rows[t], input)
  }

  /** The gateway turned a refund of the transaction down. */
  predicate Refused(log: seq<Call>, t: Id) {
    exists i :: 0 <= i < |log| && log[i].kind == RefundCall && log[i].txId == t && !log[i].accepted
  }

  /** What a refusal says about the stored rows, for good. */
  ghost predicate ErrorTrue(g: Store, input: Input, error: Error) {
    match error
    case MalformedKey => input.PayIn? && g.config.parse(input.key).None?
    case TokenizeCard => input.PayIn?
    case DuplicateIdempotencyKey => input.PayIn? && KeyTaken(g.rows, input.key)
    case NilDereference => input.PayIn? && Dereferences(g.config, input) && Inserted(g.rows, input)
    case Database => true
    case LockStore => !input.PayIn?
    case DuplicateRequest => !input.PayIn? && !g.config.nilIsError
    case RedisNil => !input.PayIn? && g.config.nilIsError
    case TransactionNotFound => input.CaptureIn? || input.VoidIn?
    case InvalidGatewayRef => (input.CaptureIn? || input.VoidIn?) && Owns(g.rows, input)
    case TransactionNotCapturable =>
      (input.CaptureIn? || input.VoidIn?) && Owns(g.rows, input)
      && g.rows[input.txId].status in {Captured, Failed, Voided, Refunded}
    case TransactionAlreadyVoided => false
    case RecordNotFound => input.RefundIn?
    case TransactionAlreadyRefunded =>
      input.RefundIn? && Owns(g.rows, input) && g.rows[input.txId].status == Refunded
    case TransactionNotRefundable => input.RefundIn? && Owns(g.rows, input)
    case GatewayRejected => input.RefundIn? && Owns(g.rows, input) && Refused(g.log, input.txId)
    case GatewayError(_) => input.RefundIn? && Owns(g.rows, input) && Refused(g.log, input.txId)
  }

  /** A replay repeats what a request of the merchant under the same key answered. */
  ghost predicate Repeated(s: State, input: Input, out: Output) {
    exists key, response ::
      CacheKey(s.store.config, input) == Some(key) && Genuine(s, key, input.merchant, response)
      && out == Decoded(input, response)
  }

  ghost predicate AnswerTrue(s: State, th: Thread) {
    match Answered(th)
    case None => true
    case Some(Ok(out)) => OutputTrue(s.store, th.input, out, TargetOf(th.input))
    case Some(Rejected(out)) => !th.input.RefundIn? && OutputTrue(s.store, th.input, out, Failed)
    case Some(Replay(out)) => Repeated(s, th.input, out)
    case Some(Err(error)) => ErrorTrue(s.store, th.input, error)
    case Some(Crashed) => true
  }

  /** What is read off the struct of an update that matched no row names none. */
  predicate Nameless(out: Output) {
    out.TxOutput? && out.id == NIL_ID
  }

  predicate BlankAnswer(th: Thread) {
    && (th.input.CaptureIn? || th.input.VoidIn?) && Answered(th).Some?
    && match Answered(th).value
       case Ok(out) => Nameless(out)
       case Rejected(out) => Nameless(out)
       case _ => false
  }

  predicate MissedOn(missed: seq<Call>, t: Id) {
    exists i :: 0 <= i < |missed| && missed[i].txId == t
  }

  /** Every answer is true but for the blank ones, and those come from a status write that missed its row. */
  ghost predicate AnswerOk(s: State, th: Thread) {
    if BlankAnswer(th) then MissedOn(s.store.missed, th.input.txId) else AnswerTrue(s, th)
  }

  ghost predicate AnswersOk(s: State) {
    forall r :: r in s.threads ==> AnswerOk(s, s.threads[r])
  }

  // ----- a true answer stays true -----

  lemma OutputStays(g: Store, g': Store, input: Input, out: Output, status: Status)
    requires OutputTrue(g, input, out, status)
    requires RowsOk(g.rows) && RowsEvolve(g.rows, g'.rows) && g.refunds <= g'.refunds
    ensures OutputTrue(g', input, out, status)
  {
    if input.RefundIn? {
      StoredStays(g.refunds, g'.refunds, out.id, input.txId, input.merchant);
    } else {
      assert Evolves(g.rows[out.id], g'.rows[out.id]) && RowOk(g.rows[out.id]);
    }
  }

  lemma ErrorStays(g: Store, g': Store, input: Input, error: Error)
    requires ErrorTrue(g, input, error) && RowsEvolve(g.rows, g'.rows) && g.log <= g'.log && g'.config == g.config
    ensures ErrorTrue(g', input, error)
  {
    if error.DuplicateIdempotencyKey? {
      var t :| t in g.rows && g.rows[t].key == input.key;
      assert t in g'.rows && g'.rows[t].key == input.key;
    } else if error.NilDereference? {
      var t :| t in g.rows && AsAsked(g.rows[t], input);
      assert t in g'.rows && AsAsked(g'.rows[t], input);
    } else if error.GatewayRejected? || error.GatewayError? {
      var i :| 0 <= i < |g.log| && g.log[i].kind == RefundCall && g.log[i].txId == input.txId && !g.log[i].accepted;
      assert g'.log[i] == g.log[i];
    }
  }

  lemma TrueStays(s: State, s': State, th: Thread, th': Thread)
    requires AnswerOk(s, th) && RowsOk(s.store.rows) && Grows(s, s')
    requires th'.input == th.input && Answered(th') == Answered(th)
    ensures AnswerOk(s', th')
  {
    hide RowsOk, RowsEvolve, OutputTrue, ErrorTrue, Genuine, Decoded, CacheKey;
    if BlankAnswer(th) {
      var i :| 0 <= i < |s.store.missed| && s.store.missed[i].txId == th.input.txId;
      assert s'.store.missed[i] == s.store.missed[i];
    } else {
      match Answered(th)
      case Some(Ok(out)) => OutputStays(s.store, s'.store, th.input, out, TargetOf(th.input));
      case Some(Rejected(out)) => OutputStays(s.store, s'.store, th.input, out, Failed);
      case Some(Replay(out)) =>
        var key, response :| CacheKey(s.store.config, th.input) == Some(key)
                             && Genuine(s, key, th.input.merchant, response) && out == Decoded(th.input, response);
        StaysGenuine(s, s', key, th.input.merchant, response);
      case Some(Err(error)) => ErrorStays(s.store, s'.store, th.input, error);
      case _ =>
    }
  }

  // ----- every new answer is true -----

  lemma WriteAnswers(g: Store, th: Thread, e: Event)
    requires Ready(g, th, e) && e.WriteE? && RowsOk(g.rows) && PcOk(g.rows, th.input, th.pc)
    ensures var after := Act(g, th, e);
            if BlankAnswer(after.th) then MissedOn(after.store.missed, th.input.txId)
            else match Answered(after.th)
                 case None => true
                 case Some(Ok(out)) => OutputTrue(after.store, th.input, out, TargetOf(th.input))
                 case Some(Rejected(out)) => !th.input.RefundIn? && OutputTrue(after.store, th.input, out, Failed)
                 case Some(Err(error)) => ErrorTrue(after.store, th.input, error)
                 case _ => false
  {
    hide RowOk;
    if Matches(g.rows, th.pc.tx.id, GuardOf(th.input)) {
      assert RowOk(g.rows[th.pc.tx.id]);
      PatchedRow(th.input, th.pc.tx, th.pc.patch, th.pc.call, g.rows[th.pc.tx.id]);
    } else {
      assert (g.missed + [th.pc.call])[|g.missed|] == th.pc.call;
    }
  }

  lemma RecordAnswers(g: Store, th: Thread, e: Event)
    requires Ready(g, th, e) && e.RecordE? && PcOk(g.rows, th.input, th.pc)
    ensures !BlankAnswer(Act(g, th, e).th)
    ensures var after := Act(g, th, e);
            match Answered(after.th)
            case Some(Ok(out)) => OutputTrue(after.store, th.input, out, TargetOf(th.input))
            case Some(Err(error)) => ErrorTrue(after.store, th.input, error)
            case _ => false
  {
    assert (g.refunds + [th.pc.row])[|g.refunds|] == th.pc.row;
  }

  lemma CallAnswers(g: Store, th: Thread, e: Event)
    requires Ready(g, th, e) && e.CallE? && PcOk(g.rows, th.input, th.pc)
    ensures var after := Act(g, th, e);
            match Answered(after.th)
            case None => true
            case Some(Err(error)) => ErrorTrue(after.store, th.input, error)
            case _ => false
  {
    var call := Call(KindOf(th.input), th.pc.tx.id, th.pc.tx.amount, e.response.Accept?);
    assert (g.log + [call])[|g.log|] == call;
  }

  lemma ReadAnswers(g: Store, th: Thread, e: Event)
    requires Ready(g, th, e) && e.ReadE? && RowsOk(g.rows)
    ensures var after := Act(g, th, e);
            match Answered(after.th)
            case None => true
            case Some(Err(error)) => ErrorTrue(after.store, th.input, error)
            case _ => false
  {
  }

  lemma OtherAnswers(g: Store, th: Thread, e: Event)
    requires Ready(g, th, e) && !e.WriteE? && !e.RecordE? && !e.CallE? && !e.ReadE? && PcOk(g.rows, th.input, th.pc)
    requires Answered(th).None?
    ensures var after := Act(g, th, e);
            match Answered(after.th)
            case None => true
            case Some(Err(error)) => ErrorTrue(after.store, th.input, error)
            case Some(Crashed) => true
            case Some(Replay(out)) =>
              exists key :: CacheKey(g.config, th.input) == Some(key) && key in g.cache
                && g.cache[key].merchant == th.input.merchant && out == Decoded(th.input, g.cache[key].response)
            case _ => false
  {
  }

  lemma NewAnswer(s: State, e: Event)
    requires Base(s) && CacheOk(s) && Moves(s, e) && Answered(s.threads[e.r]).None?
    ensures AnswerOk(Step(s, e), Act(s.store, s.threads[e.r], e).th)
  {
    hide Act, PcOk, ErrorTrue, OutputTrue, Genuine, Gave, RowsOk, KeysUnique, Decoded, CacheKey;
    var g, th := s.store, s.threads[e.r];
    var after := Act(g, th, e);
    InputKept(g, th, e);
    assert PcOk(g.rows, th.input, th.pc);
    if e.WriteE? {
      WriteAnswers(g, th, e);
    } else if e.RecordE? {
      RecordAnswers(g, th, e);
    } else if e.CallE? {
      CallAnswers(g, th, e);
    } else if e.ReadE? {
      ReadAnswers(g, th, e);
    } else {
      OtherAnswers(g, th, e);
      if Answered(after.th).Some? && Answered(after.th).value.Replay? {
        var key :| CacheKey(g.config, th.input) == Some(key) && key in g.cache
                   && g.cache[key].merchant == th.input.merchant
                   && Answered(after.th).value.out == Decoded(th.input, g.cache[key].response);
        StepGrows(s, e);
        StaysGenuine(s, Step(s, e), key, th.input.merchant, g.cache[key].response);
      }
    }
  }

  lemma AnswersStep(s: State, e: Event)
    requires Base(s) && CacheOk(s) && AnswersOk(s)
    ensures AnswersOk(Step(s, e))
  {
    hide Act, AnswerOk, PcOk, CacheOk, RowsOk, KeysUnique, Answered;
    StepGrows(s, e);
    var s' := Step(s, e);
    forall r | r in s'.threads ensures AnswerOk(s', s'.threads[r]) {
      if r !in s.threads {
        Newcomer(s, e, r);
      } else if Moves(s, e) && r == e.r && Answered(s.threads[r]).None? {
        NewAnswer(s, e);
      } else if Answered(s.threads[r]).Some? {
        TrueStays(s, s', s.threads[r], s'.threads[r]);
      } else {
        assert s'.threads[r] == s.threads[r];
        TrueStays(s, s', s.threads[r], s'.threads[r]);
      }
    }
  }

  lemma Newcomer(s: State, e: Event, r: Rid)
    requires r !in s.threads && r in Step(s, e).threads
    ensures AnswerOk(Step(s, e), Step(s, e).threads[r])
  {
    hide Act;
  }

  lemma {:induction false} AnswersOkAlways(config: Config, es: seq<Event>)
    ensures AnswersOk(Run(config, es))
  {
    if es != [] {
      hide Step, AnswersOk, CacheOk, Base;
      AnswersOkAlways(config, es[..|es| - 1]);
      BaseAlways(config, es[..|es| - 1]);
      CacheAlways(config, es[..|es| - 1]);
      AnswersStep(Run(config, es[..|es| - 1]), es[|es| - 1]);
    } else {
      assert Run(config, es).threads == map[];
    }
  }

  /**
   In every run, whatever leases do: every success, rejection, refusal and replay of every operation is true of the
   stored rows if and only if it is not the blank answer of a Capture or Void whose status write missed its row.
   */
  lemma AnswersAlways(config: Config, es: seq<Event>, r: Rid)
    requires r in Run(config, es).threads
    ensures var s, th := Run(config, es), Run(config, es).threads[r];
            && (AnswerTrue(s, th) <==> !BlankAnswer(th))
            && (BlankAnswer(th) ==> MissedOn(s.store.missed, th.input.txId))
  {
    hide Step;
    AnswersOkAlways(config, es);
    BaseAlways(config, es);
    assert AnswerOk(Run(config, es), Run(config, es).threads[r]);
  }

  /** No Capture or Void of a transaction whose leases are respected answers blank: what it answers is true. */
  lemma AnswersLeased(config: Config, es: seq<Event>, r: Rid)
    requires r in Run(config, es).threads
    requires var input := Run(config, es).threads[r].input;
             input.CaptureIn? || input.VoidIn? ==> LeasedRunOn(config, es, input.txId)
    ensures AnswerTrue(Run(config, es), Run(config, es).threads[r])
  {
    hide Step;
    AnswersAlways(config, es, r);
    var input := Run(config, es).threads[r].input;
    if input.CaptureIn? || input.VoidIn? {
      SoundAlways(config, es, input.txId);
    }
  }

  /** A Capture told captured really captured its row; the row may have been refunded since, nothing else. */
  lemma CaptureTrue(config: Config, es: seq<Event>, r: Rid, out: Output)
    requires r in Run(config, es).threads && Run(config, es).threads[r].input.CaptureIn?
    requires Answered(Run(config, es).threads[r]) == Some(Ok(out)) && out.id != NIL_ID
    ensures var g, input := Run(config, es).store, Run(config, es).threads[r].input;
            && out == TxOutput(input.txId, Tx(Captured)) && input.txId in g.rows
            && g.rows[input.txId].status in {Captured, Refunded} && g.rows[input.txId].merchant == input.merchant
  {
    hide Step;
    AnswersAlways(config, es, r);
  }

  /** Void has an answer for transactions already voided that no run ever gives. */
  lemma {:induction false} NeverAlreadyVoided(config: Config, es: seq<Event>, r: Rid)
    requires r in Run(config, es).threads
    ensures Answered(Run(config, es).threads[r]) != Some(Err(TransactionAlreadyVoided))
  {
    hide Step;
    AnswersAlways(config, es, r);
  }

  /** Whether a request can ever be told that it is a duplicate depends on the Redis client alone. */
  lemma DuplicateRequestOnlyIf(config: Config, es: seq<Event>, r: Rid)
    requires r in Run(config, es).threads
    ensures Answered(Run(config, es).threads[r]) == Some(Err(DuplicateRequest)) ==> !config.nilIsError
    ensures Answered(Run(config, es).threads[r]) == Some(Err(RedisNil)) ==> config.nilIsError
  {
    hide Step;
    AnswersAlways(config, es, r);
    Lifecycle.ConfigKept(config, es);
  }

  /** Some request of the merchant under the key was told that the gateway rejected it, with this output. */
  ghost predicate RejectedUnder(s: State, key: Id, merchant: Id, out: Output) {
    exists q :: q in s.threads && Under(s.store.config, s.threads[q].input, key, merchant)
                && Answered(s.threads[q]) == Some(Rejected(out))
  }

  /**
   A replay answers the cached output and never an error. It drops one that was given beside that output if and only
   if the cached status is failed.
   */
  lemma ReplayDropsError(config: Config, es: seq<Event>, r: Rid, key: Id)
    requires Moves(Run(config, es), LookupE(r, false))
    requires CacheKey(config, Run(config, es).threads[r].input) == Some(key)
    requires var s := Run(config, es); Cached(s.store.cache, key, s.threads[r].input.merchant, s.store.now).Some?
    ensures var s, input := Run(config, es), Run(config, es).threads[r].input;
            var stored := s.store.cache[key].response;
            && Step(s, LookupE(r, false)).threads[r].pc == Done(Replay(Decoded(input, stored)))
            && (RejectedUnder(s, key, input.merchant, stored) <==> stored.status == Tx(Failed))
  {
    var s, input := Run(config, es), Run(config, es).threads[r].input;
    var stored := s.store.cache[key].response;
    Lifecycle.ConfigKept(config, es);
    CacheAgrees(config, es, key);
    if stored.status == Tx(Failed) {
      var q :| GaveUnder(s, q, key, input.merchant, stored);
      assert Answered(s.threads[q]) == Some(Rejected(stored));
    }
    if RejectedUnder(s, key, input.merchant, stored) {
      var q :| q in s.threads && Under(s.store.config, s.threads[q].input, key, input.merchant)
               && Answered(s.threads[q]) == Some(Rejected(stored));
      AnswersAlways(config, es, q);
    }
  }
}
