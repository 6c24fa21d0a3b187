/**
 The payment service as its handlers run it: each operation is a sequence of external calls, and between any two of
 them the other goroutines may take any number of steps. Every call is a step of the protocol, so every theorem about
 runs is a theorem about whatever these methods do together.
 */
module Service {
  import opened Domain
  import opened TransactionTable
  import opened RefundTable
  import opened IdempotencyTable
  import opened LeaseLock
  import opened Protocol
  import opened Leases
  import opened GatewayClient
  import opened Promises
  import Answers
  import Caching
  import Lifecycle
  import Locking
  import Outcomes
  import Safety

  /** What a request that did not get the lock is told. */
  const LOCK_ERRORS := {LockStore, RedisNil, DuplicateRequest}

  class PaymentService {
    const txRepo: TransactionRepository
    const idemRepo: IdempotencyKeyRepository
    const refundRepo: RefundRepository
    const locker: RedisLock
    const gateway: Gateway
    const config: Config

    /** The wall clock, and the UUIDs generated so far. */
    var now: nat
    var used: set<Id>

    /** The requests in flight with their local variables. */
    var threads: map<Rid, Thread>

    /** What the gateway saw, which calls' status writes were lost, and everything that happened, in order. */
    ghost var log: seq<Call>
    ghost var failed: seq<Call>
    ghost var missed: seq<Call>
    ghost var trace: seq<Event>

    ghost function Snapshot(): State
      reads this, txRepo, idemRepo, refundRepo, locker
    {
      State(Store(config, now, used, txRepo.rows, refundRepo.refunds, idemRepo.cache, locker.locks, log, failed, missed),
            threads)
    }

    /** The clients behave as configured. */
    predicate WiredUp() {
      locker.nilIsError == config.nilIsError && txRepo.fillsOnMiss == config.fillsOnMiss
    }

    ghost predicate Valid()
      reads this, txRepo, idemRepo, refundRepo, locker
    {
      Snapshot() == Run(config, trace) && WiredUp()
    }

    constructor (config: Config)
      ensures Valid() && trace == [] && this.config == config
      ensures fresh(txRepo) && fresh(idemRepo) && fresh(refundRepo) && fresh(locker) && fresh(gateway)
    {
      this.config := config;
      txRepo := new TransactionRepository(config.fillsOnMiss);
      idemRepo := new IdempotencyKeyRepository();
      refundRepo := new RefundRepository();
      locker := new RedisLock(config.nilIsError);
      gateway := new Gateway();
      now, used, threads, log, failed, missed := 0, {NIL_ID}, map[], [], [], [];
      trace := [];
    }

    /** The tables and the UUIDs are what the protocol says they should be. */
    ghost predicate Agrees(g: Store)
      reads this, txRepo, idemRepo, refundRepo, locker
    {
      && g.now == now && g.used == used && g.rows == txRepo.rows && g.refunds == refundRepo.refunds
      && g.cache == idemRepo.cache && g.locks == locker.locks
    }

    /** What a request did, and what it knows then, is the protocol's step: it goes into the books. */
    method Commit(ghost before: State, ghost e: Event, r: Rid, th: Thread)
      requires before == Run(config, trace) && WiredUp()
      requires Agrees(Step(before, e).store) && Step(before, e).threads == threads[r := th]
      modifies this`threads, this`log, this`failed, this`missed, this`trace
      ensures Valid() && trace == old(trace) + [e] && Snapshot() == Step(before, e) && threads == old(threads)[r := th]
    {
      hide Act;
      threads := threads[r := th];
      ghost var g := Step(before, e).store;
      log, failed, missed := g.log, g.failed, g.missed;
      trace := trace + [e];
      assert trace[..|trace| - 1] == old(trace);
      Lifecycle.ConfigKept(config, trace);
    }

    /** Two stores that differ in the books alone. */
    ghost static predicate SameBut(g: Store, b: Store) {
      g == b.(log := g.log, failed := g.failed, missed := g.missed)
    }

    static function Unbooked(g: Store): Store {
      g.(log := [], failed := [], missed := [])
    }

    /** The books do not influence what anybody does. */
    static lemma BooksApart(s: State, e: Event)
      ensures var s', b := Step(s, e), Step(s.(store := Unbooked(s.store)), e);
              s'.threads == b.threads && SameBut(s'.store, b.store)
    {
      hide Act;
      if Moves(s, e) {
        ActApart(s.store, s.threads[e.r], e);
      }
    }

    ghost static predicate Apart(g: Store, th: Thread, e: Event)
      requires Ready(g, th, e)
    {
      Ready(Unbooked(g), th, e)
      && var a, b := Act(g, th, e), Act(Unbooked(g), th, e); b.th == a.th && SameBut(a.store, b.store)
    }

    static lemma WriteApart(g: Store, th: Thread, e: Event)
      requires Ready(g, th, e) && e.WriteE?
      ensures Apart(g, th, e)
    {
      hide CallStep, InsertStep, RecordStep, AcquireStep, ReadStep, LookupStep, ReleaseStep, SaveStep, CrashStep, Patched;
    }

    static lemma CallApart(g: Store, th: Thread, e: Event)
      requires Ready(g, th, e) && e.CallE?
      ensures Apart(g, th, e)
    {
      hide WriteStep, InsertStep, RecordStep, AcquireStep, ReadStep, LookupStep, ReleaseStep, SaveStep, CrashStep, PatchFor;
    }

    static lemma RestApart(g: Store, th: Thread, e: Event)
      requires Ready(g, th, e) && !e.WriteE? && !e.CallE?
      ensures Apart(g, th, e)
    {
      hide WriteStep, CallStep, Decide, Decoded;
    }

    static lemma ActApart(g: Store, th: Thread, e: Event)
      requires Ready(g, th, e)
      ensures Apart(g, th, e)
    {
      hide Apart;
      if e.WriteE? {
        WriteApart(g, th, e);
      } else if e.CallE? {
        CallApart(g, th, e);
      } else {
        RestApart(g, th, e);
      }
    }

    /** Any other goroutine takes one step, or time passes. */
    method Environment(e: Event)
      requires Valid()
      modifies this, txRepo`rows, idemRepo`cache, refundRepo`refunds, locker`locks
      ensures Valid() && trace == old(trace) + [e] && Snapshot() == Step(old(Snapshot()), e)
    {
      hide Act;
      BooksApart(Snapshot(), e);
      ghost var g := Step(Snapshot(), e).store;
      var s := Step(State(Store(config, now, used, txRepo.rows, refundRepo.refunds, idemRepo.cache, locker.locks, [], [], []),
                          threads), e);
      now, used, threads := s.store.now, s.store.used, s.threads;
      txRepo.rows, refundRepo.refunds, idemRepo.cache, locker.locks :=
        s.store.rows, s.store.refunds, s.store.cache, s.store.locks;
      log, failed, missed := g.log, g.failed, g.missed;
      trace := trace + [e];
      assert trace[..|trace| - 1] == old(trace);
      Lifecycle.ConfigKept(config, trace);
    }

    static predicate By(e: Event, r: Rid) {
      !e.Tick? && e.r == r
    }

    twostate predicate Others(r: Rid)
      reads this
    {
      && old(trace) <= trace
      && forall i :: |old(trace)| <= i < |trace| ==> !By(trace[i], r)
    }

    /** Everybody but the given request runs for as long as they like. */
    method Interfere(r: Rid)
      requires Valid() && r in threads
      modifies this, txRepo`rows, idemRepo`cache, refundRepo`refunds, locker`locks
      ensures Valid() && old(trace) <= trace && Others(r) && r in threads && threads[r] == old(threads[r])
    {
      hide Run;
      var steps: nat := *;
      while steps > 0
        invariant Valid() && Others(r) && r in threads && threads[r] == old(threads[r])
      {
        var e: Event := *;
        if !By(e, r) {
          ghost var before := Snapshot();
          Environment(e);
          OthersFixed(before, e, r);
        }
        steps := steps - 1;
      }
    }

    static lemma OthersFixed(s: State, e: Event, r: Rid)
      requires r in s.threads && !By(e, r)
      ensures r in Step(s, e).threads && Step(s, e).threads[r] == s.threads[r]
    {
      hide Act;
    }

    /** A UUID never generated before. */
    method NewUUID() returns (id: Id)
      modifies this`used
      ensures id !in old(used) && used == old(used) + {id}
    {
      id := 0;
      var seen: set<Id> := {};
      while id in used
        invariant seen <= used && id !in seen && forall u: Id :: u in seen <==> u < id
        decreases used - seen
      {
        seen := seen + {id};
        id := id + 1;
      }
      used := used + {id};
    }

    /** There is always one left. */
    static lemma SomeUUID(used: set<Id>) returns (id: Id)
      ensures id !in used
    {
      id := 0;
      var seen: set<Id> := {};
      while id in used
        invariant seen <= used && id !in seen && forall u: Id :: u in seen <==> u < id
        decreases used - seen
      {
        seen := seen + {id};
        id := id + 1;
      }
    }

    // ----- one external call each -----

    twostate predicate Stepped(r: Rid)
      reads this
    {
      |trace| == |old(trace)| + 1 && old(trace) <= trace && By(trace[|old(trace)|], r)
    }

    method Begin(r: Rid, input: Input)
      requires Valid() && r !in threads
      modifies this
      ensures Valid() && old(trace) <= trace && Stepped(r) && trace[|old(trace)|].BeginE?
      ensures r in threads
      ensures threads[r] == Thread(input, if input.PayIn? || input.RefundIn? then Lookup else Locking, None, None)
    {
      hide Run;
      Commit(Snapshot(), BeginE(r, input), r, Thread(input, Entry(input), None, None));
    }

    /** The lookup an unparsable key never gets to make. */
    ghost predicate LookedUp(before: seq<CacheCommand>, after: seq<CacheCommand>, input: Input, at: nat, dbFailed: bool)
      requires input.PayIn? || input.RefundIn?
    {
      if input.PayIn? && config.parse(input.key).None? then after == before
      else
        var key := if input.PayIn? then config.parse(input.key).value else input.idemKey;
        after == before + [FindKey(key, input.merchant, at, dbFailed)]
    }

    /** Ends the request with a cached response, or with the panic of a key that is no UUID; a failed lookup is a miss. */
    method CachedIdempotency(r: Rid) returns (ended: Option<Reply>)
      requires Valid() && r in threads && threads[r].pc == Lookup
      requires threads[r].input.PayIn? || threads[r].input.RefundIn?
      modifies this, idemRepo`commands
      ensures Valid() && old(trace) <= trace && Stepped(r) && trace[|old(trace)|].LookupE?
      ensures r in threads && threads[r].input == old(threads[r].input)
      ensures threads[r].saving == old(threads[r].saving)
      ensures LookupPromise(config, idemRepo.cache, old(now), threads[r].input, trace[|old(trace)|].dbFailed,
                                     threads[r].pc)
      ensures LookedUp(old(idemRepo.commands), idemRepo.commands, threads[r].input, old(now), trace[|old(trace)|].dbFailed)
      ensures ended.Some? ==> threads[r].pc == Done(ended.value) && !ended.value.Ok? && !ended.value.Rejected?
      ensures ended.None? ==> threads[r].pc == if threads[r].input.PayIn? then Tokenize else Locking
    {
      hide Run;
      ghost var before := Snapshot();
      var th := threads[r];
      match CacheKey(config, th.input)
      case None =>
        ended := Some(Err(MalformedKey));
        Commit(before, LookupE(r, false), r, th.(pc := Done(ended.value)));
      case Some(key) =>
        var cached, dbFailed := idemRepo.FindByKeyAndMerchantID(key, th.input.merchant, now);
        ended := if cached.Some? then Some(Replay(Decoded(th.input, cached.value))) else None;
        var next := if ended.Some? then Done(ended.value) else if th.input.PayIn? then Tokenize else Locking;
        Commit(before, LookupE(r, dbFailed), r, th.(pc := next));
    }

    method TokenizeCard(r: Rid) returns (ok: bool)
      requires Valid() && r in threads && threads[r].pc == Tokenize
      modifies this, gateway
      ensures Valid() && old(trace) <= trace && Stepped(r) && trace[|old(trace)|].TokenizeE?
      ensures r in threads && threads[r].input == old(threads[r].input)
      ensures threads[r].saving == old(threads[r].saving)
      ensures threads[r].pc == if ok then Insert else Done(Err(Error.TokenizeCard))
      ensures gateway.commands == old(gateway.commands) + [Tokenized(ok)]
    {
      hide Run;
      ok := gateway.TokenizeCard();
      Commit(Snapshot(), TokenizeE(r, ok), r, threads[r].(pc := if ok then Insert else Done(Err(Error.TokenizeCard))));
    }

    /** Inserts a row with exactly the columns the request asked for. */
    method SaveTransaction(r: Rid) returns (tx: Transaction, error: Option<Error>)
      requires Valid() && r in threads && threads[r].pc == Insert && threads[r].input.PayIn?
      modifies this, txRepo`rows, txRepo`commands
      ensures Valid() && old(trace) <= trace && Stepped(r) && trace[|old(trace)|].InsertE?
      ensures r in threads && threads[r].input == old(threads[r].input)
      ensures threads[r].saving == old(threads[r].saving)
      ensures AsAsked(tx, threads[r].input) && Pristine(tx)
      ensures InsertPromise(old(txRepo.rows), txRepo.rows, threads[r].input, tx.id, trace[|old(trace)|].fault,
                                     threads[r].pc)
      ensures txRepo.commands == old(txRepo.commands) + [CreateTx(tx, trace[|old(trace)|].fault)]
      ensures threads[r].pc == if error.Some? then Done(Err(error.value)) else Calling(tx)
    {
      hide Run;
      RowsUsed();
      ghost var before := Snapshot();
      var id := NewUUID();
      tx := NewRow(id, threads[r].input);
      var fault;
      error, fault := txRepo.Create(tx);
      assert txRepo.rows != old(txRepo.rows) ==> txRepo.rows - {id} == old(txRepo.rows);
      var next := if error.Some? then Done(Err(error.value)) else Calling(tx);
      Commit(before, InsertE(r, id, fault), r, threads[r].(pc := next));
    }

    lemma RowsUsed()
      requires Valid()
      ensures txRepo.rows.Keys <= used
    {
      Safety.BaseAlways(config, trace);
    }

    /** The token on success; otherwise the error of the store, of the client, or that this is a duplicate request. */
    method AcquireLock(r: Rid, txId: Id) returns (token: Option<Id>, error: Error)
      requires Valid() && r in threads && threads[r].pc == Locking
      requires !threads[r].input.PayIn? && threads[r].input.txId == txId
      modifies this, locker`locks, locker`commands
      ensures Valid() && old(trace) <= trace && Stepped(r) && trace[|old(trace)|].AcquireE?
      ensures r in threads && threads[r].input == old(threads[r].input)
      ensures threads[r].saving == old(threads[r].saving)
      ensures var e := trace[|old(trace)|];
              && AcquirePromise(config, old(locker.locks), locker.locks, txId, e.token, old(now), e.fault, threads[r])
              && locker.commands == old(locker.commands) + [SetIfAbsent(txId, e.token, 5, e.fault)]
              && (token == if e.fault == NoFault && !Taken(old(locker.locks), txId, old(now)) then Some(e.token)
                           else None)
      ensures token.Some? ==>
                threads[r].pc == Reading && threads[r].lease.Some? && threads[r].lease.value.token == token.value
      ensures token.None? ==>
                threads[r].pc == Done(Err(error))
                && error == if trace[|old(trace)|].fault != NoFault then LockStore
                            else if config.nilIsError then RedisNil else DuplicateRequest
    {
      hide Run;
      TokensKnown();
      ghost var before := Snapshot();
      var value := NewUUID();
      var lockError, fault;
      token, lockError, fault := locker.Acquire(txId, value, LOCK_TTL, now);
      error := if lockError.Some? then lockError.value else DuplicateRequest;
      // Redis may have granted the lease without saying so
      var granted := txId in locker.locks && locker.locks[txId].token == value;
      var th := threads[r].(pc := if token.Some? then Reading else Done(Err(error)),
                            lease := if granted then Some(locker.locks[txId]) else None);
      Commit(before, AcquireE(r, value, fault), r, th);
    }

    lemma TokensKnown()
      requires Valid()
      ensures forall t :: t in locker.locks ==> locker.locks[t].token in used
      ensures forall r :: r in threads && threads[r].pc.Locking? ==> threads[r].lease.None?
    {
      Locking.LocksAlways(config, trace);
      assert forall r :: r in threads ==> Locking.LeaseOk(Snapshot().store, threads[r]);
    }

    /** The guarded read of Capture, Void or Refund. */
    method ReadTransaction(r: Rid, txId: Id, merchant: Id) returns (decision: Decision)
      requires Valid() && r in threads && threads[r].pc == Reading && !threads[r].input.PayIn?
      requires threads[r].input.txId == txId && threads[r].input.merchant == merchant
      modifies this, txRepo`commands
      ensures Valid() && old(trace) <= trace && Stepped(r) && trace[|old(trace)|].ReadE?
      ensures r in threads && threads[r] == old(threads[r]).(pc := threads[r].pc)
      ensures decision.Refuse? ==> decision.error !in LOCK_ERRORS
      ensures ReadPromise(txRepo.rows, threads[r].input, trace[|old(trace)|].dbFailed, threads[r].pc)
      ensures txRepo.commands == old(txRepo.commands) + [FindTx(txId, merchant, trace[|old(trace)|].dbFailed)]
      ensures threads[r].pc == match decision case Proceed(tx) => Calling(tx) case Refuse(error) => Releasing(Err(error))
    {
      hide Run;
      RowsOkNow();
      ghost var before := Snapshot();
      var th := threads[r];
      var found, dbFailed := txRepo.FindByIDAndMerchantID(txId, merchant);
      if th.input.RefundIn? {
        decision := if dbFailed then Refuse(Database) else GetTxRefundable(found);
      } else {
        decision := GetTxAuthorized(found);
        if th.input.VoidIn? && decision.Proceed? && decision.tx.status == Voided {
          decision := Refuse(TransactionAlreadyVoided);
        }
      }
      var next := match decision case Proceed(tx) => Calling(tx) case Refuse(error) => Releasing(Err(error));
      Commit(before, ReadE(r, dbFailed), r, th.(pc := next));
    }

    lemma RowsOkNow()
      requires Valid()
      ensures Safety.RowsOk(txRepo.rows)
    {
      Safety.BaseAlways(config, trace);
    }

    /** What the service asks of the gateway about the row in hand. */
    static function RequestFor(input: Input, tx: Transaction): Request {
      match input
      case PayIn(kind, _, _, _, _) =>
        if kind == AuthorizeCapture then AuthorizeRequest(tx.amount, tx.currency, tx.id) else CaptureRequest(tx.gatewayRef, tx.id)
      case CaptureIn(_, _) => CaptureRequest(tx.gatewayRef, tx.id)
      case VoidIn(_, _) => VoidRequest(tx.gatewayRef, tx.id)
      case RefundIn(_, _, _) => RefundRequest(tx.gatewayRef, tx.amount)
    }

    /**
     Calls the gateway with the row in hand. Unless the call panics on an absent reference, as Charge's does, or a
     refund is turned down, it yields the columns to write and, for a refund, the refund row to insert.
     */
    method CallGateway(r: Rid, tx: Transaction)
      returns (ended: Option<Reply>, patch: Patch, refund: Option<RefundRow>, response: Response)
      requires Valid() && r in threads && threads[r].pc == Calling(tx)
      modifies this, gateway
      ensures Valid() && old(trace) <= trace && Stepped(r) && trace[|old(trace)|].CallE?
      ensures r in threads && threads[r].input == old(threads[r].input)
      ensures threads[r].saving == old(threads[r].saving)
      ensures threads[r].lease == old(threads[r].lease)
      ensures var panics := threads[r].input.PayIn? && threads[r].input.kind == DirectCharge && !config.chargePatched;
              && (ended == Some(Err(NilDereference)) <==> panics)
              && (panics ==> gateway.commands == old(gateway.commands))
              && (!panics ==>
                    && (exists request :: RequestPromise(threads[r].input, tx, request)
                                          && gateway.commands == old(gateway.commands) + [Sent(request, response)])
                    && trace[|old(trace)|].response == response
                    && CallPromise(threads[r].input, tx, response, trace[|old(trace)|].refundId, old(now), threads[r].pc)
                    && (ended.Some? <==> threads[r].input.RefundIn? && !response.Accept?)
                    && (ended.Some? ==> ended.value.Err? && RefusedRefundPromise(response, ended.value.error)))
      ensures ended.Some? ==> ended.value.Err? && threads[r].pc == Finish(threads[r].input, ended.value)
      ensures ended.None? ==>
                threads[r].pc.Writing? && threads[r].pc.tx == tx && threads[r].pc.patch == patch
                && threads[r].pc.refund == refund
      ensures ended.None? ==> (refund.Some? <==> threads[r].input.RefundIn?)
    {
      hide Run, CallPromise;
      Panics(r, tx);
      ghost var before := Snapshot();
      var th := threads[r];
      ghost var refundId := SomeUUID(used);
      patch, refund, ended, response := PatchFor(th.input, Empty, now), None, None, Empty;
      if Dereferences(config, th.input) && tx.gatewayRef.None? {
        ended := Some(Err(NilDereference));
      } else {
        var request := RequestFor(th.input, tx);
        response := gateway.Send(request);
        patch := PatchFor(th.input, response, now);
        if th.input.RefundIn? {
          match response
          case Accept(ref) =>
            var id := NewUUID();
            refundId := id;
            refund := Some(RefundRow(id, tx.id, th.input.merchant, tx.amount, ref));
          case _ => ended := Some(Err(RefundErrorOf(response)));
        }
      }
      var next := if ended.Some? then Finish(th.input, ended.value)
                  else Writing(tx, patch, Call(KindOf(th.input), tx.id, tx.amount, response.Accept?), refund);
      Commit(before, CallE(r, response, refundId), r, th.(pc := next));
      PromisedCall(r, tx, before, response, refundId);
    }

    /** Only Charge as written holds a row without a reference when it comes to dereference it. */
    lemma Panics(r: Rid, tx: Transaction)
      requires Valid() && r in threads && threads[r].pc == Calling(tx)
      ensures Dereferences(config, threads[r].input) && tx.gatewayRef.None?
              <==> threads[r].input.PayIn? && threads[r].input.kind == DirectCharge && !config.chargePatched
      ensures RequestPromise(threads[r].input, tx, RequestFor(threads[r].input, tx))
    {
      Safety.BaseAlways(config, trace);
      assert Safety.PcOk(txRepo.rows, threads[r].input, threads[r].pc);
    }

    lemma PromisedCall(r: Rid, tx: Transaction, before: State, response: Response, refundId: Id)
      requires trace != [] && before == Run(config, trace[..|trace| - 1])
      requires trace[|trace| - 1] == CallE(r, response, refundId)
      requires Valid() && Moves(before, CallE(r, response, refundId)) && before.threads[r].pc == Calling(tx)
      ensures var input := before.threads[r].input;
              && r in threads
              && (!(input.PayIn? && input.kind == DirectCharge && !config.chargePatched) ==>
                    CallPromise(input, tx, response, refundId, before.store.now, threads[r].pc))
    {
      hide Step;
      Outcomes.CallKept(config, trace[..|trace| - 1], r, response, refundId);
      Outcomes.StillThere(before, CallE(r, response, refundId));
    }

    lemma HandNow(r: Rid)
      requires Valid() && r in threads
      ensures Safety.PcOk(txRepo.rows, threads[r].input, threads[r].pc)
    {
      Safety.BaseAlways(config, trace);
    }

    /** The conditional status update; the number of rows it changed is not looked at. */
    method UpdateStatus(r: Rid, tx: Transaction, patch: Patch, refund: Option<RefundRow>) returns (ended: Option<Reply>)
      requires Valid() && r in threads && threads[r].pc.Writing?
      requires threads[r].pc.tx == tx && threads[r].pc.patch == patch && threads[r].pc.refund == refund
      modifies this, txRepo`rows, txRepo`commands
      ensures Valid() && old(trace) <= trace && Stepped(r) && trace[|old(trace)|].WriteE?
      ensures r in threads && threads[r].input == old(threads[r].input)
      ensures threads[r].lease == old(threads[r].lease)
      ensures var fault := trace[|old(trace)|].fault;
              && UpdatePromise(old(txRepo.rows), txRepo.rows, threads[r].input, tx.id, patch, fault)
              && WritePromise(config, old(txRepo.rows), old(threads[r]), fault, threads[r])
              && txRepo.commands == old(txRepo.commands) + [UpdateTx(tx.id, GuardOf(threads[r].input), patch, fault)]
      ensures ended.None? || ended.value == Err(Database) ==> threads[r].saving == old(threads[r].saving)
      ensures ended.Some? && ended.value != Err(Database) ==>
                (ended.value.Ok? || ended.value.Rejected?)
                && SavingPromise(config, threads[r].input, ended.value.out, threads[r].saving)
      ensures ended.Some? ==> threads[r].pc == Finish(threads[r].input, ended.value)
      ensures ended.None? ==> refund.Some? && threads[r].pc == Recording(tx, refund.value)
    {
      hide Run;
      WriterNow(r);
      ghost var before := Snapshot();
      var th := threads[r];
      var data, fault := txRepo.UpdateByQueryAndReturn(tx.id, GuardOf(th.input), patch);
      if data.None? {
        ended := Some(Err(Database));
        th := th.(pc := Finish(th.input, ended.value));
      } else if refund.Some? {
        ended := None;
        th := th.(pc := Recording(tx, refund.value));
      } else {
        var out := UpdateOutput(data.value);
        ended := Some(UpdateReply(patch, out));
        th := th.(pc := Finish(th.input, ended.value), saving := Background(config, th.input, out));
      }
      Commit(before, WriteE(r, fault), r, th);
      Promised(r, tx, patch, refund, before, fault);
    }

    lemma WriterNow(r: Rid)
      requires Valid() && r in threads && threads[r].pc.Writing?
      ensures Safety.RowsOk(txRepo.rows) && Safety.PcOk(txRepo.rows, threads[r].input, threads[r].pc)
      ensures Outcomes.Parsed(config, threads[r])
    {
      Safety.BaseAlways(config, trace);
      Outcomes.ParsedAlways(config, trace);
    }

    /** What the step just taken was to do. */
    lemma Promised(r: Rid, tx: Transaction, patch: Patch, refund: Option<RefundRow>, before: State, fault: Fault)
      requires trace != [] && before == Run(config, trace[..|trace| - 1]) && trace[|trace| - 1] == WriteE(r, fault)
      requires Valid() && Moves(before, WriteE(r, fault))
      requires before.threads[r].pc.Writing? && before.threads[r].pc.tx == tx && before.threads[r].pc.patch == patch
      ensures r in threads
      ensures UpdatePromise(before.store.rows, txRepo.rows, before.threads[r].input, tx.id, patch, fault)
      ensures WritePromise(config, before.store.rows, before.threads[r], fault, threads[r])
    {
      hide Step;
      Outcomes.WriteKept(config, trace[..|trace| - 1], r, fault);
      Outcomes.StillThere(before, WriteE(r, fault));
    }

    method CreateRefund(r: Rid, row: RefundRow) returns (reply: Reply)
      requires Valid() && r in threads && threads[r].pc.Recording? && threads[r].pc.row == row
      modifies this, refundRepo
      ensures Valid() && old(trace) <= trace && Stepped(r) && trace[|old(trace)|].RecordE?
      ensures r in threads && threads[r].input == old(threads[r].input)
      ensures threads[r].lease == old(threads[r].lease)
      ensures var fault := trace[|old(trace)|].fault;
              && refundRepo.refunds
                 == (if fault == NotApplied then old(refundRepo.refunds) else old(refundRepo.refunds) + [row])
              && RecordPromise(config, old(threads[r]), fault, threads[r])
              && refundRepo.commands == old(refundRepo.commands) + [CreateRefundRow(row, fault)]
      ensures if reply == Err(Database) then threads[r].saving == old(threads[r].saving)
              else reply.Ok? && SavingPromise(config, threads[r].input, reply.out, threads[r].saving)
      ensures threads[r].pc == Finish(threads[r].input, reply)
    {
      hide Run;
      HandNow(r);
      ghost var before := Snapshot();
      var th := threads[r];
      var insertFailed, fault := refundRepo.Create(row);
      if insertFailed {
        reply := Err(Database);
        th := th.(pc := Finish(th.input, reply));
      } else {
        var out := RefundOutput(row.id, Processing);
        reply := Ok(out);
        th := th.(pc := Finish(th.input, reply), saving := Background(config, th.input, out));
      }
      Commit(before, RecordE(r, fault), r, th);
    }

    /** Sends one compare-and-delete. Unless that failed the key no longer carries the token, and the lease is given back. */
    method ReleaseLock(r: Rid, txId: Id, token: Id, reply: Reply)
      requires Valid() && r in threads && threads[r].pc == Releasing(reply) && !threads[r].input.PayIn?
      requires threads[r].input.txId == txId && threads[r].lease.Some? && threads[r].lease.value.token == token
      modifies this, locker`locks, locker`commands
      ensures Valid() && old(trace) <= trace && Stepped(r) && trace[|old(trace)|].ReleaseE?
      ensures r in threads && threads[r].input == old(threads[r].input)
      ensures threads[r].pc == Done(reply) && threads[r].saving == old(threads[r].saving)
      ensures var applied := trace[|old(trace)|].applied;
              && locker.commands == old(locker.commands) + [CompareAndDelete(txId, token, applied)]
              && ReleasePromise(old(locker.locks), locker.locks, txId, token, old(now), applied)
              && (applied ==>
                    threads[r].lease == None
                    && !(Taken(locker.locks, txId, old(now)) && locker.locks[txId].token == token))
    {
      hide Run;
      ghost var before := Snapshot();
      var applied := locker.Release(txId, token, now);
      var th := threads[r].(pc := Done(reply));
      Commit(before, ReleaseE(r, applied), r, if applied then th.(lease := None) else th);
    }

    /** The background goroutine that caches the response; an error it only logs. */
    method SaveIdempotency(r: Rid)
      requires Valid() && r in threads && threads[r].saving.Some?
      modifies this, idemRepo
      ensures Valid() && old(trace) <= trace && Stepped(r) && trace[|old(trace)|].SaveE?
      ensures r in threads
      ensures threads[r] == old(threads[r]).(saving := None)
      ensures var th, saving := old(threads[r]), old(threads[r]).saving.value;
              && |idemRepo.commands| == |old(idemRepo.commands)| + 1
              && idemRepo.commands[..|old(idemRepo.commands)|] == old(idemRepo.commands)
              && (var sent := idemRepo.commands[|old(idemRepo.commands)|];
                  && sent.CreateKey? && sent.key == saving.key
                  && sent.row == CacheRow(th.input.merchant, saving.response, old(now) + 24 * 60 * 60)
                  && (trace[|old(trace)|].applied <==> sent.fault != NotApplied))
              && SavePromise(old(idemRepo.cache), idemRepo.cache, th.input.merchant, saving, old(now),
                                      trace[|old(trace)|].applied)
    {
      hide Run;
      ghost var before := Snapshot();
      var th := threads[r];
      var row := CacheRow(th.input.merchant, th.saving.value.response, now + DAY);
      var saveFailed, fault := idemRepo.Create(th.saving.value.key, row);
      Commit(before, SaveE(r, fault != NotApplied), r, th.(saving := None));
    }

    // ----- the operations -----

    /**
     The request has answered, and the stored rows bear the answer out, unless it is the blank one of a Capture or Void
     whose status write missed; that never happens while the transaction's leases are respected.
     */
    ghost predicate AnsweredTruly(r: Rid, input: Input, reply: Reply)
      reads this, txRepo, idemRepo, refundRepo, locker
    {
      && r in threads && threads[r].input == input && threads[r].pc == Done(reply)
      && (Answers.AnswerTrue(Snapshot(), threads[r]) <==> !Answers.BlankAnswer(threads[r]))
      && ((input.CaptureIn? || input.VoidIn?) && LeasedRunOn(config, trace, input.txId) ==>
            !Answers.BlankAnswer(threads[r]))
    }

    lemma TruthOfAnswers(r: Rid, input: Input, reply: Reply)
      requires Valid() && r in threads && threads[r].input == input && threads[r].pc == Done(reply)
      ensures AnsweredTruly(r, input, reply)
    {
      hide Run, LeasedRunOn, Answers.AnswerTrue, Answers.BlankAnswer;
      Answers.AnswersAlways(config, trace, r);
      if (input.CaptureIn? || input.VoidIn?) && LeasedRunOn(config, trace, input.txId) {
        Answers.AnswersLeased(config, trace, r);
      }
    }

    /** One request for the lock and, if that was granted, one release with the same token. */
    static ghost predicate TakenAndGivenBack(before: seq<LockCommand>, after: seq<LockCommand>, txId: Id, granted: bool) {
      && |after| == |before| + (if granted then 2 else 1) && after[..|before|] == before
      && var ask := after[|before|];
         && ask.SetIfAbsent? && ask.key == txId && ask.ttl == 5
         && (granted ==>
               ask.fault == NoFault
               && var back := after[|before| + 1]; back.CompareAndDelete? && back.key == txId && back.token == ask.token)
    }

    /** What has been answered is waiting to be saved, if it is a payment's or refund's own answer; nothing else is. */
    static ghost predicate WaitsToBeSaved(config: Config, th: Thread, reply: Reply) {
      if reply.Ok? || reply.Rejected? then SavingPromise(config, th.input, reply.out, th.saving) else th.saving == None
    }

    /** From taking the lock to giving it back: what Capture, Void and Refund have in common. */
    method UnderLock(r: Rid, txId: Id, merchant: Id) returns (reply: Reply)
      requires Valid() && r in threads && threads[r].pc == Locking && !threads[r].input.PayIn?
      requires threads[r].input.txId == txId && threads[r].input.merchant == merchant && threads[r].saving == None
      modifies this, txRepo, idemRepo`cache, refundRepo, locker, gateway
      ensures Valid() && old(trace) <= trace
      ensures r in threads && threads[r].input == old(threads[r].input) && threads[r].pc == Done(reply)
      ensures WaitsToBeSaved(config, threads[r], reply) && !reply.Replay?
      ensures TakenAndGivenBack(old(locker.commands), locker.commands, txId, !(reply.Err? && reply.error in LOCK_ERRORS))
    {
      hide Run, Others, Stepped, Valid, AcquirePromise, ReadPromise, ReleasePromise, SavingPromise;
      var token, error := AcquireLock(r, txId);
      if token.None? {
        return Err(error);
      }
      Interfere(r);
      var decision := ReadTransaction(r, txId, merchant);
      Interfere(r);
      if decision.Refuse? {
        reply := Err(decision.error);
      } else {
        reply := UnderRow(r, decision.tx);
        Interfere(r);
      }
      ReleaseLock(r, txId, token.value, reply);
    }

    /** With the row in hand: the gateway call, the status update and, for a refund, the refund row. */
    method UnderRow(r: Rid, tx: Transaction) returns (reply: Reply)
      requires Valid() && r in threads && threads[r].pc == Calling(tx) && !threads[r].input.PayIn?
      requires threads[r].saving == None
      modifies this, txRepo, idemRepo`cache, refundRepo, locker`locks, gateway
      ensures Valid() && old(trace) <= trace
      ensures r in threads && threads[r].input == old(threads[r].input) && threads[r].lease == old(threads[r].lease)
      ensures threads[r].pc == Releasing(reply) && WaitsToBeSaved(config, threads[r], reply)
      ensures !reply.Replay? && (reply.Err? ==> reply.error !in LOCK_ERRORS)
    {
      hide Run, Others, Stepped, Valid, CallPromise, UpdatePromise, WritePromise, RecordPromise, SavingPromise, RequestPromise;
      ReferencePresent(r, tx);
      var ended, patch, refund, response := CallGateway(r, tx);
      if ended.Some? {
        return ended.value;
      }
      Interfere(r);
      ended := UpdateStatus(r, tx, patch, refund);
      if ended.Some? {
        return ended.value;
      }
      Interfere(r);
      reply := CreateRefund(r, refund.value);
    }

    /** The gateway reference is there to be dereferenced. */
    lemma ReferencePresent(r: Rid, tx: Transaction)
      requires Valid() && r in threads && threads[r].pc == Calling(tx) && !threads[r].input.PayIn?
      ensures tx.gatewayRef.Some?
    {
      Lifecycle.NoNilReference(config, trace, r);
    }

    method Capture(r: Rid, merchant: Id, txId: Id) returns (reply: Reply)
      requires Valid() && r !in threads
      modifies this, txRepo, idemRepo`cache, refundRepo, locker, gateway
      ensures Valid() && old(trace) <= trace && AnsweredTruly(r, CaptureIn(merchant, txId), reply)
      ensures TakenAndGivenBack(old(locker.commands), locker.commands, txId, !(reply.Err? && reply.error in LOCK_ERRORS))
      ensures reply.Ok? && LeasedRunOn(config, trace, txId) ==> !Answers.Nameless(reply.out)
      ensures reply.Ok? && !Answers.Nameless(reply.out) ==>
                reply.out == TxOutput(txId, Tx(Captured)) && txId in txRepo.rows
                && txRepo.rows[txId].status in {Captured, Refunded} && txRepo.rows[txId].merchant == merchant
    {
      hide Run, LeasedRunOn, Others, Stepped, TakenAndGivenBack;
      Begin(r, CaptureIn(merchant, txId));
      Interfere(r);
      reply := UnderLock(r, txId, merchant);
      TruthOfAnswers(r, CaptureIn(merchant, txId), reply);
    }

    method Void(r: Rid, merchant: Id, txId: Id) returns (reply: Reply)
      requires Valid() && r !in threads
      modifies this, txRepo, idemRepo`cache, refundRepo, locker, gateway
      ensures Valid() && old(trace) <= trace && AnsweredTruly(r, VoidIn(merchant, txId), reply)
      ensures TakenAndGivenBack(old(locker.commands), locker.commands, txId, !(reply.Err? && reply.error in LOCK_ERRORS))
      ensures reply.Ok? && LeasedRunOn(config, trace, txId) ==> !Answers.Nameless(reply.out)
      ensures reply.Ok? && !Answers.Nameless(reply.out) ==>
                reply.out == TxOutput(txId, Tx(Voided)) && txId in txRepo.rows
                && txRepo.rows[txId].status == Voided && txRepo.rows[txId].merchant == merchant
    {
      hide Run, LeasedRunOn, Others, Stepped, TakenAndGivenBack;
      Begin(r, VoidIn(merchant, txId));
      Interfere(r);
      reply := UnderLock(r, txId, merchant);
      TruthOfAnswers(r, VoidIn(merchant, txId), reply);
    }

    method Refund(r: Rid, merchant: Id, txId: Id, idemKey: Id) returns (reply: Reply)
      requires Valid() && r !in threads
      modifies this, txRepo, idemRepo, refundRepo, locker, gateway
      ensures Valid() && old(trace) <= trace && AnsweredTruly(r, RefundIn(merchant, txId, idemKey), reply)
      ensures if reply.Replay? then locker.commands == old(locker.commands)
              else TakenAndGivenBack(old(locker.commands), locker.commands, txId,
                                     !(reply.Err? && reply.error in LOCK_ERRORS))
      ensures reply.Ok? ==>
                reply.out.RefundOutput? && Caching.RefundStored(refundRepo.refunds, reply.out.id, txId, merchant)
                && SentToCache(idemRepo.commands, RefundIn(merchant, txId, idemKey), reply.out)
      ensures reply == Err(TransactionAlreadyRefunded) ==>
                txId in txRepo.rows && txRepo.rows[txId].merchant == merchant && txRepo.rows[txId].status == Refunded
    {
      hide Run, Others, Stepped, Valid, AnsweredTruly, LookupPromise, TakenAndGivenBack, SavingPromise, LookedUp;
      Begin(r, RefundIn(merchant, txId, idemKey));
      Interfere(r);
      var ended := LookUpRefund(r);
      if ended.Some? {
        reply := ended.value;
      } else {
        Interfere(r);
        reply := UnderLock(r, txId, merchant);
      }
      SaveInBackground(r, reply);
      TruthOfAnswers(r, RefundIn(merchant, txId, idemKey), reply);
      RefundTrue(r, RefundIn(merchant, txId, idemKey), reply);
    }

    /** A Refund's key is a UUID already: its lookup replays, or goes on. */
    method LookUpRefund(r: Rid) returns (ended: Option<Reply>)
      requires Valid() && r in threads && threads[r].pc == Lookup && threads[r].input.RefundIn?
      modifies this, idemRepo`commands
      ensures Valid() && old(trace) <= trace
      ensures r in threads && threads[r].input == old(threads[r].input) && threads[r].saving == old(threads[r].saving)
      ensures ended.Some? ==> threads[r].pc == Done(ended.value) && ended.value.Replay?
      ensures ended.None? ==> threads[r].pc == Locking
    {
      hide Run, Others, Valid;
      ended := CachedIdempotency(r);
    }

    lemma RefundTrue(r: Rid, input: Input, reply: Reply)
      requires AnsweredTruly(r, input, reply) && input.RefundIn?
      ensures reply.Ok? ==>
                reply.out.RefundOutput? && Caching.RefundStored(refundRepo.refunds, reply.out.id, input.txId, input.merchant)
      ensures reply == Err(TransactionAlreadyRefunded) ==>
                input.txId in txRepo.rows && txRepo.rows[input.txId].merchant == input.merchant
                && txRepo.rows[input.txId].status == Refunded
      ensures !reply.Rejected?
    {
    }

    /** The last thing the cache was sent is the output, for the merchant and under the request's own key. */
    ghost predicate SentToCache(commands: seq<CacheCommand>, input: Input, out: Output) {
      && commands != []
      && var last := commands[|commands| - 1];
         last.CreateKey? && last.row.merchant == input.merchant && last.row.response == out
         && SavedUnder(config, input, last.key)
    }

    /** The goroutine that saves the response of a payment or refund, at some later time. */
    method SaveInBackground(r: Rid, reply: Reply)
      requires Valid() && r in threads && threads[r].pc == Done(reply) && WaitsToBeSaved(config, threads[r], reply)
      requires threads[r].input.PayIn? || threads[r].input.RefundIn?
      modifies this, txRepo`rows, idemRepo, refundRepo`refunds, locker`locks
      ensures Valid() && old(trace) <= trace
      ensures r in threads && threads[r].input == old(threads[r].input) && threads[r].pc == Done(reply)
      ensures threads[r].saving == None
      ensures if reply.Ok? || reply.Rejected? then SentToCache(idemRepo.commands, threads[r].input, reply.out)
              else idemRepo.commands == old(idemRepo.commands)
    {
      hide Run, Others, Stepped, Valid, SavePromise;
      if threads[r].saving.Some? {
        Interfere(r);
        SaveIdempotency(r);
      }
    }

    /** The row a payment names: what was asked for, and the gateway call that opened it for that amount. */
    ghost predicate Paid(id: Id, input: Input, accepted: bool)
      requires input.PayIn?
      reads this, txRepo
    {
      && id in txRepo.rows && txRepo.rows[id].id == id && AsAsked(txRepo.rows[id], input)
      && Outcomes.Opened(log, input, id, accepted)
      && (if !accepted then txRepo.rows[id].status == Failed
          else txRepo.rows[id].gatewayRef.Some?
               && (input.kind == DirectCharge ==> txRepo.rows[id].status in {Captured, Refunded}))
    }

    method Authorize(r: Rid, merchant: Id, key: string, amount: int, currency: string) returns (reply: Reply)
      requires Valid() && r !in threads
      modifies this, txRepo, idemRepo, refundRepo`refunds, locker`locks, gateway
      ensures Valid() && old(trace) <= trace
      ensures AnsweredTruly(r, PayIn(AuthorizeCapture, merchant, key, amount, currency), reply)
      ensures reply.Ok? || reply.Rejected? ==>
                && reply.out.TxOutput? && reply.out.status == Tx(if reply.Ok? then Authorized else Failed)
                && Paid(reply.out.id, PayIn(AuthorizeCapture, merchant, key, amount, currency), reply.Ok?)
                && SentToCache(idemRepo.commands, PayIn(AuthorizeCapture, merchant, key, amount, currency), reply.out)
                && var row := txRepo.rows[reply.out.id];
                   row.merchant == merchant && row.key == key && row.kind == AuthorizeCapture && row.amount == amount
                   && row.currency == currency
      ensures reply == Err(DuplicateIdempotencyKey) ==> KeyUsed(txRepo.rows, key)
    {
      reply := Pay(r, PayIn(AuthorizeCapture, merchant, key, amount, currency));
    }

    method Charge(r: Rid, merchant: Id, key: string, amount: int, currency: string) returns (reply: Reply)
      requires Valid() && r !in threads
      modifies this, txRepo, idemRepo, refundRepo`refunds, locker`locks, gateway
      ensures Valid() && old(trace) <= trace
      ensures AnsweredTruly(r, PayIn(DirectCharge, merchant, key, amount, currency), reply)
      ensures !config.chargePatched ==> !reply.Ok? && !reply.Rejected?
      ensures reply.Ok? || reply.Rejected? ==>
                && reply.out.TxOutput? && reply.out.status == Tx(if reply.Ok? then Captured else Failed)
                && Paid(reply.out.id, PayIn(DirectCharge, merchant, key, amount, currency), reply.Ok?)
                && SentToCache(idemRepo.commands, PayIn(DirectCharge, merchant, key, amount, currency), reply.out)
                && var row := txRepo.rows[reply.out.id];
                   row.merchant == merchant && row.key == key && row.kind == DirectCharge && row.amount == amount
                   && row.currency == currency
      ensures reply == Err(NilDereference) ==>
                exists t :: t in txRepo.rows && AsAsked(txRepo.rows[t], PayIn(DirectCharge, merchant, key, amount, currency))
      ensures reply == Err(DuplicateIdempotencyKey) ==> KeyUsed(txRepo.rows, key)
    {
      reply := Pay(r, PayIn(DirectCharge, merchant, key, amount, currency));
    }

    /** Authorize and Charge make the same calls; only what they ask of the gateway differs. */
    method Pay(r: Rid, input: Input) returns (reply: Reply)
      requires Valid() && r !in threads && input.PayIn?
      modifies this, txRepo, idemRepo, refundRepo`refunds, locker`locks, gateway
      ensures Valid() && old(trace) <= trace && AnsweredTruly(r, input, reply)
      ensures input.kind == DirectCharge && !config.chargePatched ==> !reply.Ok? && !reply.Rejected?
      ensures reply.Ok? || reply.Rejected? ==>
                && reply.out.TxOutput? && Paid(reply.out.id, input, reply.Ok?)
                && reply.out.status
                   == Tx(if reply.Rejected? then Failed else if input.kind == DirectCharge then Captured else Authorized)
                && SentToCache(idemRepo.commands, input, reply.out)
      ensures reply == Err(NilDereference) ==> exists t :: t in txRepo.rows && AsAsked(txRepo.rows[t], input)
      ensures reply == Err(DuplicateIdempotencyKey) ==> KeyUsed(txRepo.rows, input.key)
    {
      hide Run, LeasedRunOn, Others, Stepped, Paid, AnsweredTruly, SentToCache, Valid;
      Begin(r, input);
      Interfere(r);
      reply := Settle(r);
      SaveInBackground(r, reply);
      TruthOfAnswers(r, input, reply);
      PaymentTrue(r, input, reply);
      if reply.Ok? || reply.Rejected? {
        PaidRow(r, input);
      }
    }

    lemma PaymentTrue(r: Rid, input: Input, reply: Reply)
      requires AnsweredTruly(r, input, reply) && input.PayIn?
      ensures reply == Err(DuplicateIdempotencyKey) ==> KeyUsed(txRepo.rows, input.key)
      ensures reply == Err(NilDereference) ==> exists t :: t in txRepo.rows && AsAsked(txRepo.rows[t], input)
    {
      if reply == Err(NilDereference) {
        var t :| t in txRepo.rows && AsAsked(txRepo.rows[t], input);
      }
    }

    lemma PaidRow(r: Rid, input: Input)
      requires Valid() && r in threads && threads[r].input == input && input.PayIn?
      requires threads[r].pc.Done? && (threads[r].pc.reply.Ok? || threads[r].pc.reply.Rejected?)
      ensures var reply := threads[r].pc.reply;
              && reply.out.TxOutput? && Paid(reply.out.id, input, reply.Ok?)
              && reply.out.status
                 == Tx(if reply.Rejected? then Failed else if input.kind == DirectCharge then Captured else Authorized)
    {
      hide Run, LeasedRunOn;
      var out := threads[r].pc.reply.out;
      Outcomes.PaymentAsAsked(config, trace, r, out);
      hide Outcomes.Opened;
      Answers.AnswersAlways(config, trace, r);
      Safety.BaseAlways(config, trace);
      var row := txRepo.rows[out.id];
      assert RowOk(row) && out.status.Tx? && out.status.status in Answers.Passed(row);
    }

    method Settle(r: Rid) returns (reply: Reply)
      requires Valid() && r in threads && threads[r].pc == Lookup && threads[r].input.PayIn? && threads[r].saving == None
      modifies this, txRepo, idemRepo, refundRepo`refunds, locker`locks, gateway
      ensures Valid() && old(trace) <= trace
      ensures r in threads && threads[r].input == old(threads[r].input) && threads[r].pc == Done(reply)
      ensures WaitsToBeSaved(config, threads[r], reply)
      ensures threads[r].input.kind == DirectCharge && !config.chargePatched ==> !reply.Ok? && !reply.Rejected?
    {
      hide Run, Others, Stepped, Valid, LookupPromise, InsertPromise, SavingPromise;
      var ended := CachedIdempotency(r);
      if ended.Some? {
        return ended.value;
      }
      Interfere(r);
      var ok := TokenizeCard(r);
      if !ok {
        return Err(Error.TokenizeCard);
      }
      Interfere(r);
      var tx, error := SaveTransaction(r);
      if error.Some? {
        return Err(error.value);
      }
      Interfere(r);
      reply := OwnRow(r, tx);
    }

    /** With the pending row just inserted: the gateway call and the status update. */
    method OwnRow(r: Rid, tx: Transaction) returns (reply: Reply)
      requires Valid() && r in threads && threads[r].pc == Calling(tx) && threads[r].input.PayIn? && tx.gatewayRef.None?
      requires threads[r].saving == None
      modifies this, txRepo, idemRepo`cache, refundRepo`refunds, locker`locks, gateway
      ensures Valid() && old(trace) <= trace
      ensures r in threads && threads[r].input == old(threads[r].input) && threads[r].pc == Done(reply)
      ensures WaitsToBeSaved(config, threads[r], reply)
      ensures threads[r].input.kind == DirectCharge && !config.chargePatched ==> reply == Err(NilDereference)
    {
      hide Run, Others, Stepped, Valid, CallPromise, UpdatePromise, WritePromise, SavingPromise, RequestPromise;
      var ended, patch, refund, response := CallGateway(r, tx);
      if ended.Some? {
        return ended.value;
      }
      Interfere(r);
      ended := UpdateStatus(r, tx, patch, refund);
      reply := ended.value;
    }
  }
}
