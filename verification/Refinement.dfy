/** Every run is a run of the atomic machine that exempts no more than the transactions whose leases were outlived. */
module Refinement {
  import opened Domain
  import opened TransactionTable
  import opened Protocol
  import opened Promises
  import opened Safety
  import opened Locking
  import opened Keys
  import opened Leases
  import opened Caching
  import opened AtomicMachine

  // ----- the atomic state behind a state of the system -----

  /** The transaction whose gateway call a request has made and not yet settled. */
  function Busy(th: Thread): Option<Id> {
    if th.pc.Writing? || th.pc.Recording? then Some(th.pc.tx.id) else None
  }

  ghost predicate BusyOn(s: State, t: Id) {
    exists r :: r in s.threads && Busy(s.threads[r]) == Some(t)
  }

  ghost predicate RecordingOn(s: State, t: Id) {
    exists r :: r in s.threads && s.threads[r].pc.Recording? && s.threads[r].pc.tx.id == t
  }

  /** A refund still being recorded has not happened yet. */
  ghost function AtomicRow(s: State, t: Id): Transaction
    requires t in s.store.rows
  {
    if RecordingOn(s, t) then s.store.rows[t].(status := Captured) else s.store.rows[t]
  }

  /** Nor has the call of an operation that has not settled. */
  ghost function AtomicCalls(s: State, t: Id): seq<Call> {
    var calls := CallsOf(s.store.log, t);
    if BusyOn(s, t) && calls != [] then calls[..|calls| - 1] else calls
  }

  ghost function AtomicOf(s: State): Atomic {
    Atomic(
      s.store.config,
      map t | t in s.store.rows :: AtomicRow(s, t),
      s.store.refunds,
      map t | t in s.store.rows :: AtomicCalls(s, t),
      s.store.failed,
      map r | r in s.threads && Answered(s.threads[r]).Some? :: Exchange(s.threads[r].input, Answered(s.threads[r]).value))
  }

  // ----- the atomic event behind an event of the system -----

  ghost predicate MadeFor(th: Thread, response: Response, at: nat) {
    th.pc.Writing? && th.pc.patch == PatchFor(th.input, response, at) && (response.Accept? <==> th.pc.call.accepted)
  }

  ghost function OperateOf(th: Thread, r: Rid, lands: bool, records: bool, trouble: Option<Reply>): AtomicEvent {
    if th.pc.Writing? && exists response, at :: MadeFor(th, response, at) then
      var response, at :| MadeFor(th, response, at);
      Operate(r, th.input, th.pc.tx.id, response, at, NIL_ID, lands, records, trouble)
    else if th.pc.Recording? then
      Operate(r, th.input, th.pc.tx.id, Accept(th.pc.row.ref), 0, th.pc.row.id, lands, records, trouble)
    else Idle
  }

  ghost function AnswerOf(r: Rid, before: Thread, after: Thread): AtomicEvent {
    if Answered(after).Some? && Answered(before).None? then Answer(r, before.input, Answered(after).value) else Idle
  }

  ghost function AtomicEventOf(s: State, e: Event): AtomicEvent {
    if !Moves(s, e) then Idle
    else
      var g, th := s.store, s.threads[e.r];
      var after := Act(g, th, e);
      match e
      case InsertE(r, id, fault) =>
        if after.store.rows == g.rows then AnswerOf(r, th, after.th) else Open(r, th.input, id, Answered(after.th))
      case ReadE(r, dbFailed) =>
        if !dbFailed && Decide(g.rows, th.input).Refuse? then Decline(r, th.input, Decide(g.rows, th.input).error)
        else AnswerOf(r, th, after.th)
      case CallE(r, response, refundId) =>
        if after.store.log == g.log || after.th.pc.Writing? then AnswerOf(r, th, after.th)
        else Operate(r, th.input, th.pc.tx.id, response, 0, NIL_ID, false, false, None)
      case WriteE(r, fault) =>
        if after.th.pc.Recording? then Idle
        else OperateOf(th, r, fault != NotApplied, false, if fault == NoFault then None else Some(Err(Database)))
      case RecordE(r, fault) =>
        OperateOf(th, r, true, fault != NotApplied, if fault == NoFault then None else Some(Err(Database)))
      case CrashE(r) =>
        if Busy(th).Some? then OperateOf(th, r, th.pc.Recording?, false, Some(Crashed)) else AnswerOf(r, th, after.th)
      case _ => AnswerOf(e.r, th, after.th)
  }

  // ----- how the abstraction moves -----

  /**
   What a request moves on: the basic invariant, the log about known rows, the cache about given answers, and leases
   respected on the transaction it has in hand unless that is a payment's own.
   */
  ghost predicate Ground(s: State, r: Rid) {
    && Base(s) && LocksOk(s) && CallsOk(s) && CacheOk(s) && OwnCalls(s) && r in s.threads
    && (Hand(s.threads[r]).Some? && !s.threads[r].input.PayIn? ==>
          LeasedOn(s, Hand(s.threads[r]).value) && Guarded(s, Hand(s.threads[r]).value))
  }

  lemma BusyShape(g: Store, th: Thread, e: Event)
    requires Ready(g, th, e)
    ensures Busy(Act(g, th, e).th).Some? ==> Busy(Act(g, th, e).th) == Hand(th)
    ensures Act(g, th, e).th.pc.Recording? ==> Hand(th) == Some(Act(g, th, e).th.pc.tx.id)
  {
  }

  lemma GroundBase(s: State, r: Rid)
    requires Ground(s, r)
    ensures Base(s) && CallsOk(s)
  {
    hide Base, CallsOk;
  }

  lemma OthersElsewhere(s: State, r: Rid)
    requires Ground(s, r)
    ensures forall q :: q in s.threads && q != r && Hand(s.threads[q]).Some? ==> Hand(s.threads[q]) != Hand(s.threads[r])
  {
    hide Hand, PcOk, Guarded, LeasedOn, LocksOk, CallsOk, CacheOk, OwnCalls, Base;
    forall q | q in s.threads && q != r && Hand(s.threads[q]).Some? ensures Hand(s.threads[q]) != Hand(s.threads[r]) {
      if Hand(s.threads[q]) == Hand(s.threads[r]) {
        if s.threads[r].input.PayIn? {
          OwnHand(s, r, q);
        } else {
          HandsUnique(s, q, r, Hand(s.threads[r]).value);
        }
      }
    }
  }

  lemma MovesOne(s: State, e: Event)
    requires Moves(s, e)
    ensures Step(s, e) == State(Act(s.store, s.threads[e.r], e).store, s.threads[e.r := Act(s.store, s.threads[e.r], e).th])
  {
    hide Act;
  }

  /** Who is busy on a transaction after one request moved. */
  lemma BusyMoved(s: State, s': State, r: Rid, th': Thread, t: Id)
    requires r in s.threads && s'.threads == s.threads[r := th']
    requires Busy(th').Some? ==> Busy(th') == Hand(s.threads[r])
    requires Hand(s.threads[r]) == Some(t) ==> forall q :: q in s.threads && q != r ==> Hand(s.threads[q]) != Some(t)
    ensures Hand(s.threads[r]) == Some(t) ==>
              (BusyOn(s, t) <==> Busy(s.threads[r]) == Some(t)) && (BusyOn(s', t) <==> Busy(th') == Some(t))
    ensures Hand(s.threads[r]) != Some(t) ==> (BusyOn(s', t) <==> BusyOn(s, t))
  {
    if BusyOn(s, t) {
      var q :| q in s.threads && Busy(s.threads[q]) == Some(t);
      assert q != r ==> q in s'.threads && Busy(s'.threads[q]) == Some(t);
    }
    if Busy(th') == Some(t) {
      assert Busy(s'.threads[r]) == Some(t);
    }
  }

  lemma RecordingMoved(s: State, s': State, r: Rid, th': Thread, t: Id)
    requires r in s.threads && s'.threads == s.threads[r := th']
    requires th'.pc.Recording? ==> Hand(s.threads[r]) == Some(th'.pc.tx.id)
    requires Hand(s.threads[r]) == Some(t) ==> forall q :: q in s.threads && q != r ==> Hand(s.threads[q]) != Some(t)
    ensures Hand(s.threads[r]) == Some(t) ==>
              (RecordingOn(s, t) <==> s.threads[r].pc.Recording?) && (RecordingOn(s', t) <==> th'.pc.Recording?)
    ensures Hand(s.threads[r]) != Some(t) ==> (RecordingOn(s', t) <==> RecordingOn(s, t))
  {
    if RecordingOn(s, t) {
      var q :| q in s.threads && s.threads[q].pc.Recording? && s.threads[q].pc.tx.id == t;
      assert q != r ==> q in s'.threads && s'.threads[q].pc.Recording? && s'.threads[q].pc.tx.id == t;
    }
    if th'.pc.Recording? {
      assert s'.threads[r].pc.Recording?;
    }
  }

  /** Nobody but the request that has a transaction in hand is busy on it, before or after the step. */
  lemma BusyStep(s: State, e: Event, t: Id)
    requires Moves(s, e) && (Hand(s.threads[e.r]) == Some(t) ==> Ground(s, e.r))
    ensures var th, th', s' := s.threads[e.r], Step(s, e).threads[e.r], Step(s, e);
            && (Hand(th) == Some(t) ==>
                  && (BusyOn(s, t) <==> Busy(th) == Some(t)) && (BusyOn(s', t) <==> Busy(th') == Some(t))
                  && (RecordingOn(s, t) <==> th.pc.Recording?) && (RecordingOn(s', t) <==> th'.pc.Recording?))
            && (Hand(th) != Some(t) ==>
                  (BusyOn(s', t) <==> BusyOn(s, t)) && (RecordingOn(s', t) <==> RecordingOn(s, t)))
  {
    hide Act, Step, Ground, BusyOn, RecordingOn;
    BusyShape(s.store, s.threads[e.r], e);
    if Hand(s.threads[e.r]) == Some(t) {
      OthersElsewhere(s, e.r);
    }
    MovesOne(s, e);
    BusyMoved(s, Step(s, e), e.r, Step(s, e).threads[e.r], t);
    RecordingMoved(s, Step(s, e), e.r, Step(s, e).threads[e.r], t);
  }

  /** What the step does to transactions the request does not have in hand: nothing. */
  lemma Untouched(s: State, e: Event, t: Id)
    requires Base(s) && Moves(s, e) && t in s.store.rows && Hand(s.threads[e.r]) != Some(t)
    ensures t in Step(s, e).store.rows
    ensures AtomicRow(Step(s, e), t) == AtomicRow(s, t) && AtomicCalls(Step(s, e), t) == AtomicCalls(s, t)
  {
    hide Act, PcOk, Ground;
    BusyStep(s, e, t);
    HandStep(s.store, s.threads[e.r], e, t);
  }

  /** What the atomic machine sees of the transaction in hand: the row as read and the calls before the request's own. */
  lemma InHand(s: State, e: Event)
    requires Moves(s, e) && Ground(s, e.r) && Hand(s.threads[e.r]).Some?
    ensures var th := s.threads[e.r];
            var calls := CallsOf(s.store.log, th.pc.tx.id);
            && th.pc.tx.id in s.store.rows && AtomicRow(s, th.pc.tx.id) == th.pc.tx
            && (!th.pc.Calling? ==> calls != [])
            && AtomicCalls(s, th.pc.tx.id) == (if th.pc.Calling? then calls else calls[..|calls| - 1])
            && (th.pc.Writing? ==> calls[|calls| - 1] == th.pc.call)
            && (th.pc.Recording? ==> calls[|calls| - 1] == Call(RefundCall, th.pc.tx.id, th.pc.tx.amount, true))
  {
    hide Act, Ground;
    var th := s.threads[e.r];
    BusyStep(s, e, th.pc.tx.id);
    HandExact(s, e.r);
  }

  lemma AnswersStep(s: State, e: Event)
    requires Moves(s, e)
    ensures AtomicOf(Step(s, e)).config == AtomicOf(s).config
    ensures AtomicOf(Step(s, e)).answers
            == match Answered(Act(s.store, s.threads[e.r], e).th)
               case Some(reply) => AtomicOf(s).answers[e.r := Exchange(s.threads[e.r].input, reply)]
               case None => AtomicOf(s).answers - {e.r}
  {
    hide Act, AtomicRow, AtomicCalls;
    InputKept(s.store, s.threads[e.r], e);
  }

  lemma UnansweredStays(s: State, r: Rid)
    requires r in s.threads && Answered(s.threads[r]).None?
    ensures r !in AtomicOf(s).answers && AtomicOf(s).answers - {r} == AtomicOf(s).answers
  {
  }

  /** A map that agrees with another but at one key, if any. */
  lemma OneKey<V>(a: map<Id, V>, b: map<Id, V>, hand: Option<Id>)
    requires a.Keys == b.Keys && (hand.Some? ==> hand.value in a)
    requires forall t :: t in a && hand != Some(t) ==> b[t] == a[t]
    ensures if hand.None? then b == a else b == a[hand.value := b[hand.value]]
  {
  }

  /** The transactions the atomic machine sees change: the one in hand, unless a row appears. */
  lemma TablesStep(s: State, e: Event)
    requires Base(s) && Moves(s, e) && Step(s, e).store.rows.Keys == s.store.rows.Keys
    ensures var a, b, hand := AtomicOf(s), AtomicOf(Step(s, e)), Hand(s.threads[e.r]);
            if hand.None? then b.rows == a.rows && b.calls == a.calls
            else hand.value in s.store.rows
                 && b.rows == a.rows[hand.value := AtomicRow(Step(s, e), hand.value)]
                 && b.calls == a.calls[hand.value := AtomicCalls(Step(s, e), hand.value)]
  {
    hide Step, Act, Ready, AtomicRow, AtomicCalls, Base, CallsOf;
    var hand := Hand(s.threads[e.r]);
    forall t | t in s.store.rows && hand != Some(t)
      ensures AtomicRow(Step(s, e), t) == AtomicRow(s, t) && AtomicCalls(Step(s, e), t) == AtomicCalls(s, t)
    {
      Untouched(s, e, t);
    }
    if hand.Some? {
      InHandKnown(s, e.r);
    }
    OneKey(AtomicOf(s).rows, AtomicOf(Step(s, e)).rows, hand);
    OneKey(AtomicOf(s).calls, AtomicOf(Step(s, e)).calls, hand);
  }

  lemma InHandKnown(s: State, r: Rid)
    requires Base(s) && r in s.threads && Hand(s.threads[r]).Some?
    ensures Hand(s.threads[r]).value in s.store.rows
  {
    assert PcOk(s.store.rows, s.threads[r].input, s.threads[r].pc);
  }

  /** How the atomic machine sees the transaction in hand after the step. */
  lemma HandAfter(s: State, e: Event)
    requires Moves(s, e) && Ground(s, e.r) && Hand(s.threads[e.r]).Some? && Hand(s.threads[e.r]).value in Step(s, e).store.rows
    ensures var t, s' := Hand(s.threads[e.r]).value, Step(s, e);
            var th', calls := s'.threads[e.r], CallsOf(s'.store.log, t);
            && AtomicRow(s', t) == (if th'.pc.Recording? then s'.store.rows[t].(status := Captured) else s'.store.rows[t])
            && AtomicCalls(s', t) == (if Busy(th') == Some(t) && calls != [] then calls[..|calls| - 1] else calls)
  {
    hide Act, Ground;
    BusyStep(s, e, Hand(s.threads[e.r]).value);
  }

  /** The atomic machine allows the event, and moves with it as the system does. */
  ghost predicate Follows(s: State, e: Event, ev: AtomicEvent) {
    Allowed(AtomicOf(s), ev) && AtomicOf(Step(s, e)) == AtomicStep(AtomicOf(s), ev)
  }

  ghost predicate Refines(s: State, e: Event) {
    Follows(s, e, AtomicEventOf(s, e))
  }

  // ----- steps that are nothing, or only an answer, to the atomic machine -----

  lemma StillBusy(s: State, e: Event, t: Id)
    requires !Moves(s, e)
    ensures (BusyOn(Step(s, e), t) <==> BusyOn(s, t)) && (RecordingOn(Step(s, e), t) <==> RecordingOn(s, t))
  {
    hide Act;
    var s' := Step(s, e);
    if BusyOn(s, t) {
      var q :| q in s.threads && Busy(s.threads[q]) == Some(t);
      assert q in s'.threads && Busy(s'.threads[q]) == Some(t);
    }
    if RecordingOn(s, t) {
      var q :| q in s.threads && s.threads[q].pc.Recording? && s.threads[q].pc.tx.id == t;
      assert q in s'.threads && s'.threads[q].pc.Recording?;
    }
  }

  lemma StillTables(s: State, e: Event)
    requires !Moves(s, e)
    ensures Step(s, e).store == s.store.(now := Step(s, e).store.now)
    ensures AtomicOf(Step(s, e)).answers == AtomicOf(s).answers
  {
    hide Act, AtomicRow, AtomicCalls;
  }

  lemma StillRefines(s: State, e: Event)
    requires !Moves(s, e)
    ensures Refines(s, e)
  {
    hide Step, BusyOn, RecordingOn;
    StillTables(s, e);
    forall t | t in s.store.rows
      ensures AtomicRow(Step(s, e), t) == AtomicRow(s, t) && AtomicCalls(Step(s, e), t) == AtomicCalls(s, t)
    {
      StillBusy(s, e, t);
    }
    assert AtomicOf(Step(s, e)).rows == AtomicOf(s).rows;
    assert AtomicOf(Step(s, e)).calls == AtomicOf(s).calls;
  }

  /** A step that leaves the tables and the transaction in hand as they are. */
  ghost predicate Quiet(g: Store, th: Thread, e: Event)
    requires Ready(g, th, e)
  {
    var after := Act(g, th, e);
    && after.store.rows == g.rows && after.store.log == g.log
    && after.store.failed == g.failed && after.store.refunds == g.refunds
    && Busy(after.th) == Busy(th) && after.th.pc.Recording? == th.pc.Recording?
  }

  lemma QuietHand(s: State, e: Event)
    requires Moves(s, e) && Ground(s, e.r) && Quiet(s.store, s.threads[e.r], e) && Hand(s.threads[e.r]).Some?
    ensures var t := Hand(s.threads[e.r]).value;
            && t in s.store.rows && t in Step(s, e).store.rows
            && AtomicRow(Step(s, e), t) == AtomicRow(s, t) && AtomicCalls(Step(s, e), t) == AtomicCalls(s, t)
  {
    hide Act, Ground, Base, PcOk, BusyOn, RecordingOn, CallsOf;
    GroundBase(s, e.r);
    InHandKnown(s, e.r);
    BusyStep(s, e, Hand(s.threads[e.r]).value);
  }

  lemma QuietTables(s: State, e: Event)
    requires Moves(s, e) && Ground(s, e.r) && Quiet(s.store, s.threads[e.r], e)
    ensures AtomicOf(Step(s, e)) == AtomicOf(s).(answers := AtomicOf(Step(s, e)).answers)
  {
    hide Act, Ground, Base, PcOk, AtomicRow, AtomicCalls;
    GroundBase(s, e.r);
    TablesStep(s, e);
    InputKept(s.store, s.threads[e.r], e);
    if Hand(s.threads[e.r]).Some? {
      QuietHand(s, e);
      var t := Hand(s.threads[e.r]).value;
      assert AtomicOf(s).rows[t] == AtomicRow(s, t) && AtomicOf(s).calls[t] == AtomicCalls(s, t);
    }
  }

  /** The answers of steps that leave the tables alone, as far as one request and the store can tell. */
  lemma AnswerKinds(g: Store, th: Thread, e: Event)
    requires Ready(g, th, e) && PcOk(g.rows, th.input, th.pc) && Answered(th).None?
    requires !e.WriteE? && !e.RecordE? && (e.ReadE? ==> e.dbFailed || Decide(g.rows, th.input).Proceed?)
    requires e.CallE? ==> Act(g, th, e).store.log == g.log
    ensures match Answered(Act(g, th, e).th)
            case None => true
            case Some(Ok(_)) => false
            case Some(Rejected(_)) => false
            case Some(Crashed) => true
            case Some(Replay(out)) =>
              exists key :: CacheKey(g.config, th.input) == Some(key) && key in g.cache
                && g.cache[key].merchant == th.input.merchant && out == Decoded(th.input, g.cache[key].response)
            case Some(Err(NilDereference)) =>
              th.input.PayIn? && Dereferences(g.config, th.input) && th.pc.Calling?
              && th.pc.tx == NewRow(th.pc.tx.id, th.input)
            case Some(Err(DuplicateIdempotencyKey)) => th.input.PayIn? && KeyTaken(g.rows, th.input.key)
            case Some(Err(error)) => Tellable(Start(g.config), th.input, Err(error))
  {
    if e.CallE? {
      var call := Call(KindOf(th.input), th.pc.tx.id, th.pc.tx.amount, e.response.Accept?);
      assert |g.log + [call]| != |g.log|;
    }
  }

  /** A replay repeats an exchange the atomic machine knows. */
  lemma ReplayTellable(s: State, input: Input, key: Id)
    requires CacheOk(s) && key in s.store.cache && CacheKey(s.store.config, input) == Some(key)
    requires s.store.cache[key].merchant == input.merchant
    ensures Tellable(AtomicOf(s), input, Replay(Decoded(input, s.store.cache[key].response)))
  {
    hide AtomicRow, AtomicCalls, Decoded, CacheKey;
    var response := s.store.cache[key].response;
    var q :| GaveUnder(s, q, key, input.merchant, response);
    assert q in AtomicOf(s).answers && Repeats(s.store.config, AtomicOf(s).answers[q], input, Decoded(input, response));
  }

  /** What a quiet step answers, the atomic machine may tell. */
  lemma QuietTellable(s: State, e: Event)
    requires Moves(s, e) && Ground(s, e.r) && Quiet(s.store, s.threads[e.r], e) && Answered(s.threads[e.r]).None?
    requires !e.WriteE? && !e.RecordE? && (e.ReadE? ==> e.dbFailed || Decide(s.store.rows, s.threads[e.r].input).Proceed?)
    requires e.CallE? ==> Act(s.store, s.threads[e.r], e).store.log == s.store.log
    ensures var after := Act(s.store, s.threads[e.r], e).th;
            Answered(after).Some? ==> Tellable(AtomicOf(s), s.threads[e.r].input, Answered(after).value)
  {
    hide Act, AtomicRow, AtomicCalls, Quiet, CacheOk, KeyTaken, Decoded, CacheKey;
    var g, th := s.store, s.threads[e.r];
    assert PcOk(g.rows, th.input, th.pc) by { HandExact(s, e.r); }
    AnswerKinds(g, th, e);
    match Answered(Act(g, th, e).th)
    case Some(Replay(out)) =>
      var key :| CacheKey(g.config, th.input) == Some(key) && key in g.cache && g.cache[key].merchant == th.input.merchant
                 && out == Decoded(th.input, g.cache[key].response);
      ReplayTellable(s, th.input, key);
    case Some(Err(NilDereference)) =>
      InHand(s, e);
      assert AtomicOf(s).rows[th.pc.tx.id] == NewRow(th.pc.tx.id, th.input);
    case Some(Err(DuplicateIdempotencyKey)) => KeyTakenAtomic(s, th.input.key);
    case _ =>
  }

  /** Lookups, tokenizing, locking, refused or failed reads, releases, saves and idle crashes. */
  lemma QuietRefines(s: State, e: Event)
    requires Moves(s, e) && Ground(s, e.r) && Quiet(s.store, s.threads[e.r], e)
    requires !e.WriteE? && !e.RecordE? && !(e.CrashE? && Busy(s.threads[e.r]).Some?)
    requires e.ReadE? ==> e.dbFailed || Decide(s.store.rows, s.threads[e.r].input).Proceed?
    requires e.CallE? ==>
               Answered(Act(s.store, s.threads[e.r], e).th).Some? && Act(s.store, s.threads[e.r], e).store.log == s.store.log
    ensures Refines(s, e)
  {
    hide Act, Ground, AtomicRow, AtomicCalls, Tellable;
    var th := s.threads[e.r];
    QuietTables(s, e);
    AnswersStep(s, e);
    Growing(s.store, th, e);
    if Answered(th).None? {
      QuietTellable(s, e);
    }
    if Answered(th).Some? {
      assert AtomicOf(s).answers[e.r] == Exchange(th.input, Answered(th).value);
    } else {
      UnansweredStays(s, e.r);
    }
    assert AtomicEventOf(s, e) == AnswerOf(e.r, th, Act(s.store, th, e).th);
  }

  /** A read that refuses answers what the atomic row demands: nobody else has the transaction in hand. */
  lemma ReadRefines(s: State, e: Event)
    requires Moves(s, e) && Ground(s, e.r) && e.ReadE? && !e.dbFailed && Decide(s.store.rows, s.threads[e.r].input).Refuse?
    requires LeasedOn(s, s.threads[e.r].input.txId)
    ensures Refines(s, e)
  {
    var th := s.threads[e.r];
    assert Quiet(s.store, th, e);
    QuietTables(s, e);
    AnswersStep(s, e);
    UnansweredStays(s, e.r);
    ReaderAlone(s, e.r);
    DecideAtomic(s, th.input);
    DecidePromised(AtomicOf(s).rows, th.input);
    assert AtomicEventOf(s, e) == Decline(e.r, th.input, Decide(s.store.rows, th.input).error);
    hide Act, Ground, AtomicRow, AtomicCalls, Tellable;
  }

  /** While a request is about to read its row, nobody is recording a refund of it. */
  lemma ReaderAlone(s: State, r: Rid)
    requires Base(s) && LocksOk(s) && r in s.threads && s.threads[r].pc.Reading?
    requires s.threads[r].input.PayIn? || LeasedOn(s, s.threads[r].input.txId)
    ensures !s.threads[r].input.PayIn? && !RecordingOn(s, s.threads[r].input.txId)
  {
    var th := s.threads[r];
    assert PcOk(s.store.rows, th.input, th.pc);
    forall q | q in s.threads && s.threads[q].pc.Recording? && q != r
      ensures s.threads[q].pc.tx.id != th.input.txId
    {
      HandFacts(s.store.rows, s.threads[q]);
    }
  }

  /** The read refuses what it must. */
  lemma DecidePromised(rows: Rows, input: Input)
    requires !input.PayIn? && Decide(rows, input).Refuse?
    ensures MustRefuse(rows, input, Decide(rows, input).error)
  {
  }

  lemma DecideAtomic(s: State, input: Input)
    requires !input.PayIn? && !RecordingOn(s, input.txId)
    ensures Decide(AtomicOf(s).rows, input) == Decide(s.store.rows, input)
  {
  }

  // ----- a row appears -----

  lemma InsertFacts(g: Store, th: Thread, e: Event)
    requires Ready(g, th, e) && e.InsertE? && Act(g, th, e).store.rows != g.rows
    ensures var after, row := Act(g, th, e), NewRow(e.id, th.input);
            && after.store.rows == g.rows[e.id := row] && !KeyTaken(g.rows, row.key)
            && after.store.log == g.log && after.store.failed == g.failed && after.store.refunds == g.refunds
            && (Answered(after.th).Some? ==> Answered(after.th).value == Err(Database))
  {
  }

  /** What the atomic machine sees of the row that appears. */
  lemma InsertSeen(s: State, e: Event)
    requires Moves(s, e) && Ground(s, e.r) && e.InsertE? && Act(s.store, s.threads[e.r], e).store.rows != s.store.rows
    ensures e.id !in s.store.rows && Step(s, e).store.rows == s.store.rows[e.id := NewRow(e.id, s.threads[e.r].input)]
    ensures AtomicRow(Step(s, e), e.id) == NewRow(e.id, s.threads[e.r].input)
    ensures AtomicCalls(Step(s, e), e.id) == []
  {
    hide Act, Ground, Base, CallsOk, BusyOn, RecordingOn, KeyTaken;
    GroundBase(s, e.r);
    InsertFacts(s.store, s.threads[e.r], e);
    NobodyBusy(s, e);
    NoCalls(s, e.id);
  }

  lemma InsertTables(s: State, e: Event)
    requires Moves(s, e) && Ground(s, e.r) && e.InsertE? && Act(s.store, s.threads[e.r], e).store.rows != s.store.rows
    ensures var row := NewRow(e.id, s.threads[e.r].input);
            && AtomicOf(Step(s, e)).rows == AtomicOf(s).rows[e.id := row]
            && AtomicOf(Step(s, e)).calls == AtomicOf(s).calls[e.id := []]
  {
    hide Step, Act, Ground, Base, AtomicRow, AtomicCalls, NewRow;
    GroundBase(s, e.r);
    InsertSeen(s, e);
    forall t | t in s.store.rows
      ensures AtomicRow(Step(s, e), t) == AtomicRow(s, t) && AtomicCalls(Step(s, e), t) == AtomicCalls(s, t)
    {
      Untouched(s, e, t);
    }
  }

  lemma InsertRefines(s: State, e: Event)
    requires Moves(s, e) && Ground(s, e.r) && e.InsertE? && Act(s.store, s.threads[e.r], e).store.rows != s.store.rows
    ensures Refines(s, e)
  {
    hide Act, Ground, BusyOn, RecordingOn, KeyTaken, AtomicRow, AtomicCalls, Tellable;
    var th := s.threads[e.r];
    InsertFacts(s.store, th, e);
    InsertTables(s, e);
    NobodyBusy(s, e);
    AnswersStep(s, e);
    UnansweredStays(s, e.r);
    KeyTakenAtomic(s, NewRow(e.id, th.input).key);
    assert AtomicEventOf(s, e) == Open(e.r, th.input, e.id, Answered(Act(s.store, th, e).th));
  }

  lemma KeyTakenAtomic(s: State, key: string)
    ensures KeyTaken(AtomicOf(s).rows, key) <==> KeyTaken(s.store.rows, key)
  {
    var a := AtomicOf(s);
    if KeyTaken(s.store.rows, key) {
      var t :| t in s.store.rows && s.store.rows[t].key == key;
      assert t in a.rows && a.rows[t].key == key;
    }
  }

  lemma NobodyBusy(s: State, e: Event)
    requires Moves(s, e) && Ground(s, e.r) && e.InsertE?
    ensures e.id !in s.store.rows && !BusyOn(Step(s, e), e.id) && !RecordingOn(Step(s, e), e.id)
  {
    hide Act, LeasedOn, LocksOk, Guarded;
    BusyStep(s, e, e.id);
    forall q | q in s.threads && Hand(s.threads[q]).Some? ensures Hand(s.threads[q]).value in s.store.rows {
      InHandKnown(s, q);
    }
  }

  lemma NoCalls(s: State, t: Id)
    requires CallsOk(s) && t !in s.store.rows
    ensures CallsOf(s.store.log, t) == []
  {
    NoCallsIn(s.store.log, t);
  }

  // ----- a call -----

  lemma CallFacts(g: Store, th: Thread, e: Event)
    requires Ready(g, th, e) && e.CallE? && Act(g, th, e).store.log != g.log
    ensures var after := Act(g, th, e);
            && after.store.log == g.log + [Call(KindOf(th.input), th.pc.tx.id, th.pc.tx.amount, e.response.Accept?)]
            && after.store.rows == g.rows && after.store.failed == g.failed && after.store.refunds == g.refunds
            && (if th.input.RefundIn? && !e.response.Accept? then after.th.pc == Releasing(Err(RefundErrorOf(e.response)))
                else after.th.pc.Writing? && after.th.pc.tx == th.pc.tx)
  {
  }

  /** What the atomic machine sees of the transaction in hand before and after the call. */
  lemma CallTables(s: State, e: Event)
    requires Moves(s, e) && Ground(s, e.r) && e.CallE? && Act(s.store, s.threads[e.r], e).store.log != s.store.log
    ensures var tx, input, s' := s.threads[e.r].pc.tx, s.threads[e.r].input, Step(s, e);
            && tx.id in s.store.rows && tx.id in s'.store.rows
            && AtomicRow(s, tx.id) == tx && AtomicRow(s', tx.id) == tx
            && AtomicCalls(s', tx.id) == AtomicCalls(s, tx.id)
                 + (if input.RefundIn? && !e.response.Accept? then [Call(KindOf(input), tx.id, tx.amount, e.response.Accept?)] else [])
  {
    hide Act, Ground, Base, AtomicRow, AtomicCalls, CallGuarded;
    var g, th := s.store, s.threads[e.r];
    var call := Call(KindOf(th.input), th.pc.tx.id, th.pc.tx.amount, e.response.Accept?);
    CallFacts(g, th, e);
    CallsOfAppend(g.log, call, th.pc.tx.id);
    InHand(s, e);
    HandAfter(s, e);
    HandExact(s, e.r);
    assert (CallsOf(g.log, th.pc.tx.id) + [call])[..|CallsOf(g.log, th.pc.tx.id)|] == CallsOf(g.log, th.pc.tx.id) + [];
  }

  lemma HandExact(s: State, r: Rid)
    requires Ground(s, r)
    ensures RowGuarded(s.store.rows, s.threads[r]) && CallGuarded(s.store.log, s.threads[r])
    ensures PcOk(s.store.rows, s.threads[r].input, s.threads[r].pc)
  {
    hide LocksOk, CallsOk, CacheOk, LeasedOn;
    assert PcOk(s.store.rows, s.threads[r].input, s.threads[r].pc);
    if s.threads[r].input.PayIn? {
      OwnRow(s.store.rows, s.threads[r]);
    }
  }

  lemma CallRefines(s: State, e: Event)
    requires Moves(s, e) && Ground(s, e.r) && e.CallE? && Act(s.store, s.threads[e.r], e).store.log != s.store.log
    ensures Refines(s, e)
  {
    hide Act, Ground, Base, AtomicRow, AtomicCalls, BusyOn, RecordingOn, Tellable;
    GroundBase(s, e.r);
    var g, th := s.store, s.threads[e.r];
    CallFacts(g, th, e);
    CallTables(s, e);
    TablesStep(s, e);
    AnswersStep(s, e);
    UnansweredStays(s, e.r);
    HandExact(s, e.r);
    assert AtomicOf(s).rows[th.pc.tx.id] == th.pc.tx;
    assert AtomicOf(s).calls[th.pc.tx.id] == AtomicCalls(s, th.pc.tx.id);
    if Act(g, th, e).th.pc.Writing? {
      assert AtomicCalls(s, th.pc.tx.id) + [] == AtomicCalls(s, th.pc.tx.id);
    } else {
      assert AtomicEventOf(s, e) == Operate(e.r, th.input, th.pc.tx.id, e.response, 0, NIL_ID, false, false, None);
    }
  }

  // ----- a status write, a refund insert, or a death before them -----

  /** Only three events settle an operation: its status write, its refund insert, or its death. */
  predicate Settles(th: Thread, e: Event) {
    || (e.WriteE? && th.pc.Writing? && (e.fault != NoFault || th.pc.refund.None?))
    || (e.RecordE? && th.pc.Recording?)
    || (e.CrashE? && Busy(th).Some?)
  }

  function Lands(th: Thread, e: Event): bool
    requires Settles(th, e)
  {
    th.pc.Recording? || (e.WriteE? && e.fault != NotApplied)
  }

  function Records(th: Thread, e: Event): bool
    requires Settles(th, e)
  {
    e.RecordE? && e.fault != NotApplied
  }

  function Trouble(th: Thread, e: Event): Option<Reply>
    requires Settles(th, e)
  {
    if e.CrashE? then Some(Crashed) else if e.fault == NoFault then None else Some(Err(Database))
  }

  lemma SettleWriteFacts(g: Store, th: Thread, e: Event)
    requires Ready(g, th, e) && Settles(th, e) && th.pc.Writing? && RowGuarded(g.rows, th) && PcOk(g.rows, th.input, th.pc)
    ensures var after, tx, patch := Act(g, th, e), th.pc.tx, th.pc.patch;
            && after.store.rows == (if Lands(th, e) then g.rows[tx.id := Patched(tx, patch)] else g.rows)
            && after.store.log == g.log && after.store.refunds == g.refunds
            && after.store.failed == (if Lands(th, e) then g.failed else g.failed + [th.pc.call])
            && Busy(after.th).None?
            && Answered(after.th) == Some(if Trouble(th, e).Some? then Trouble(th, e).value
                                          else UpdateReply(patch, TxOutput(tx.id, Tx(patch.status))))
  {
  }

  lemma SettleRecordFacts(g: Store, th: Thread, e: Event)
    requires Ready(g, th, e) && Settles(th, e) && th.pc.Recording?
    ensures var after := Act(g, th, e);
            && after.store.rows == g.rows && after.store.log == g.log && after.store.failed == g.failed
            && after.store.refunds == (if Records(th, e) then g.refunds + [th.pc.row] else g.refunds)
            && Busy(after.th).None?
            && Answered(after.th) == Some(if Trouble(th, e).Some? then Trouble(th, e).value
                                          else Ok(RefundOutput(th.pc.row.id, Processing)))
  {
  }

  /** Settling leaves the log alone, makes no row appear, and lets go of the transaction. */
  lemma SettleLetsGo(s: State, e: Event)
    requires Moves(s, e) && Ground(s, e.r) && Settles(s.threads[e.r], e)
    ensures var g, th, s' := s.store, s.threads[e.r], Step(s, e);
            && Hand(th) == Some(th.pc.tx.id) && s'.store.log == g.log && s'.store.rows.Keys == g.rows.Keys
            && th.pc.tx.id in g.rows && Busy(s'.threads[e.r]).None? && !s'.threads[e.r].pc.Recording?
  {
    hide Act, Ground, Base, CallGuarded, PcOk, AtomicOf;
    var g, th := s.store, s.threads[e.r];
    HandExact(s, e.r);
    MovesOne(s, e);
    if th.pc.Writing? {
      SettleWriteFacts(g, th, e);
    } else {
      SettleRecordFacts(g, th, e);
    }
  }

  /** After settling, the atomic machine sees the stored row, and one more call on it. */
  lemma SettleTables(s: State, e: Event)
    requires Moves(s, e) && Ground(s, e.r) && Settles(s.threads[e.r], e)
    ensures var th, s' := s.threads[e.r], Step(s, e);
            var tx := th.pc.tx;
            var call := if th.pc.Writing? then th.pc.call else Call(RefundCall, tx.id, tx.amount, true);
            && tx.id in s.store.rows && tx.id in s'.store.rows
            && AtomicOf(s).rows[tx.id] == tx
            && AtomicOf(s').rows == AtomicOf(s).rows[tx.id := s'.store.rows[tx.id]]
            && AtomicOf(s').calls == AtomicOf(s).calls[tx.id := AtomicOf(s).calls[tx.id] + [call]]
  {
    hide Step, Ground, Base, AtomicRow, AtomicCalls, RowGuarded, CallGuarded, PcOk, BusyOn, RecordingOn;
    GroundBase(s, e.r);
    var g, th := s.store, s.threads[e.r];
    SettleLetsGo(s, e);
    InHand(s, e);
    HandAfter(s, e);
    TablesStep(s, e);
    assert AtomicOf(s).rows[th.pc.tx.id] == AtomicRow(s, th.pc.tx.id);
    assert AtomicOf(s).calls[th.pc.tx.id] == AtomicCalls(s, th.pc.tx.id);
    var calls := CallsOf(g.log, th.pc.tx.id);
    assert calls == calls[..|calls| - 1] + [calls[|calls| - 1]];
  }

  lemma MadeForExists(s: State, r: Rid) returns (response: Response, at: nat)
    requires Ground(s, r) && s.threads[r].pc.Writing?
    ensures MadeFor(s.threads[r], response, at)
  {
    HandExact(s, r);
    var th := s.threads[r];
    response, at :| th.pc.patch == PatchFor(th.input, response, at) && (response.Accept? <==> th.pc.call.accepted);
  }

  /** What a request has in hand that is about to write its status. */
  lemma WriterHolds(rows: Rows, th: Thread)
    requires PcOk(rows, th.input, th.pc) && RowGuarded(rows, th) && th.pc.Writing?
    ensures var tx, call := th.pc.tx, th.pc.call;
            && call == Call(KindOf(th.input), tx.id, tx.amount, call.accepted) && (th.input.RefundIn? ==> call.accepted)
            && (th.pc.refund.Some? <==> th.input.RefundIn?) && tx.id in rows && rows[tx.id] == tx
  {
  }

  /** A request may operate on what it has in hand. */
  lemma HolderMay(rows: Rows, th: Thread)
    requires PcOk(rows, th.input, th.pc) && th.pc.Writing?
    ensures var input, tx := th.input, th.pc.tx;
            && tx.merchant == input.merchant
            && (if input.PayIn? then AsAsked(tx, input) && Pristine(tx) else tx.id == input.txId && tx.gatewayRef.Some?)
    ensures forall a: Rows :: th.pc.tx.id in a && a[th.pc.tx.id] == th.pc.tx ==> Hit(a, th.input, th.pc.tx.id)
  {
  }

  lemma SettleWriteAllowed(s: State, e: Event)
    requires Moves(s, e) && Ground(s, e.r) && Settles(s.threads[e.r], e) && s.threads[e.r].pc.Writing?
    ensures var th := s.threads[e.r];
            var ev := OperateOf(th, e.r, Lands(th, e), false, Trouble(th, e));
            && AtomicEventOf(s, e) == ev && ev.Operate? && ev.r == e.r && ev.input == th.input && ev.txId == th.pc.tx.id
            && ev.lands == Lands(th, e) && !ev.records && ev.trouble == Trouble(th, e)
            && MadeFor(th, ev.response, ev.at) && Allowed(AtomicOf(s), ev)
  {
    hide Act, Ground, AtomicRow, AtomicCalls, BusyOn, RecordingOn, Tellable, PcOk, RowGuarded, CallGuarded;
    var g, th := s.store, s.threads[e.r];
    HandExact(s, e.r);
    HolderMay(g.rows, th);
    WriterHolds(g.rows, th);
    SettleWriteFacts(g, th, e);
    SettleTables(s, e);
    UnansweredStays(s, e.r);
    var response, at := MadeForExists(s, e.r);
    assert AtomicOf(s).rows[th.pc.tx.id] == th.pc.tx;
  }

  lemma SettleWriteRefines(s: State, e: Event)
    requires Moves(s, e) && Ground(s, e.r) && Settles(s.threads[e.r], e) && s.threads[e.r].pc.Writing?
    ensures Refines(s, e)
  {
    hide Act, Ground, AtomicRow, AtomicCalls, BusyOn, RecordingOn, PcOk, RowGuarded, CallGuarded, AtomicEventOf, OperateOf,
      Tellable, Allowed;
    var g, th := s.store, s.threads[e.r];
    SettleWriteAllowed(s, e);
    HandExact(s, e.r);
    WriterHolds(g.rows, th);
    SettleWriteFacts(g, th, e);
    SettleTables(s, e);
    AnswersStep(s, e);
    assert AtomicOf(s).rows[th.pc.tx.id] == th.pc.tx;
  }

  /** What a request has in hand that is about to record its refund. */
  lemma RecorderHolds(rows: Rows, th: Thread)
    requires PcOk(rows, th.input, th.pc) && RowGuarded(rows, th) && th.pc.Recording?
    ensures var tx, row := th.pc.tx, th.pc.row;
            && th.input.RefundIn? && tx.merchant == th.input.merchant && tx.status == Captured && tx.gatewayRef.Some?
            && tx.id == th.input.txId && tx.id in rows && rows[tx.id] == Patched(tx, PatchFor(th.input, Accept(row.ref), 0))
            && row == RefundRow(row.id, tx.id, tx.merchant, tx.amount, row.ref)
  {
  }

  lemma SettleRecordAllowed(s: State, e: Event)
    requires Moves(s, e) && Ground(s, e.r) && Settles(s.threads[e.r], e) && s.threads[e.r].pc.Recording?
    ensures var th := s.threads[e.r];
            var ev := Operate(e.r, th.input, th.pc.tx.id, Accept(th.pc.row.ref), 0, th.pc.row.id, true, Records(th, e),
                              Trouble(th, e));
            AtomicEventOf(s, e) == ev && Allowed(AtomicOf(s), ev)
  {
    hide Act, Ground, AtomicRow, AtomicCalls, BusyOn, RecordingOn, PcOk, RowGuarded, CallGuarded, Tellable;
    var g, th := s.store, s.threads[e.r];
    HandExact(s, e.r);
    RecorderHolds(g.rows, th);
    SettleRecordFacts(g, th, e);
    SettleTables(s, e);
    UnansweredStays(s, e.r);
    assert AtomicOf(s).rows[th.pc.tx.id] == th.pc.tx;
  }

  lemma SettleRecordRefines(s: State, e: Event)
    requires Moves(s, e) && Ground(s, e.r) && Settles(s.threads[e.r], e) && s.threads[e.r].pc.Recording?
    ensures Refines(s, e)
  {
    hide Act, Ground, AtomicRow, AtomicCalls, BusyOn, RecordingOn, PcOk, RowGuarded, CallGuarded, AtomicEventOf, OperateOf,
      Tellable, Allowed;
    var g, th := s.store, s.threads[e.r];
    SettleRecordAllowed(s, e);
    HandExact(s, e.r);
    RecorderHolds(g.rows, th);
    SettleRecordFacts(g, th, e);
    SettleTables(s, e);
    AnswersStep(s, e);
    assert AtomicOf(s).rows[th.pc.tx.id] == th.pc.tx;
  }

  /** The status write of a refund is not yet anything: the refund happens when it is recorded. */
  lemma RefundWriteRefines(s: State, e: Event)
    requires Moves(s, e) && Ground(s, e.r) && e.WriteE? && !Settles(s.threads[e.r], e)
    ensures Refines(s, e)
  {
    hide Act, Ground, Base, AtomicRow, AtomicCalls, BusyOn, RecordingOn, PcOk, RowGuarded, CallGuarded, Tellable;
    GroundBase(s, e.r);
    var g, th := s.store, s.threads[e.r];
    HandExact(s, e.r);
    RefundWriteFacts(g, th, e);
    InHand(s, e);
    HandAfter(s, e);
    TablesStep(s, e);
    AnswersStep(s, e);
    UnansweredStays(s, e.r);
    assert AtomicOf(s).rows[th.pc.tx.id] == AtomicRow(s, th.pc.tx.id);
    assert AtomicOf(s).calls[th.pc.tx.id] == AtomicCalls(s, th.pc.tx.id);
  }

  lemma RefundWriteFacts(g: Store, th: Thread, e: Event)
    requires Ready(g, th, e) && e.WriteE? && !Settles(th, e) && RowGuarded(g.rows, th) && PcOk(g.rows, th.input, th.pc)
    ensures var after := Act(g, th, e);
            && after.store.rows == g.rows[th.pc.tx.id := th.pc.tx.(status := Refunded)] && th.pc.tx.status == Captured
            && after.store.log == g.log && after.store.failed == g.failed && after.store.refunds == g.refunds
            && after.th.pc.Recording? && after.th.pc.tx == th.pc.tx
  {
  }

  lemma QuietCase(g: Store, th: Thread, e: Event)
    requires Ready(g, th, e) && !e.WriteE? && !e.RecordE? && !(e.CrashE? && Busy(th).Some?)
    requires e.InsertE? ==> Act(g, th, e).store.rows == g.rows
    requires e.CallE? ==> Act(g, th, e).store.log == g.log
    ensures Quiet(g, th, e)
    ensures e.CallE? ==> Answered(Act(g, th, e).th).Some?
  {
    if e.CallE? {
      var call := Call(KindOf(th.input), th.pc.tx.id, th.pc.tx.amount, e.response.Accept?);
      assert |g.log + [call]| != |g.log|;
    }
  }

  // ----- an exempt transaction goes its own way -----

  /** A Capture, Void or Refund moves with an exempt transaction in hand, or is refused one. */
  ghost predicate Strays(s: State, e: Event, exempt: iset<Id>)
    requires Moves(s, e)
  {
    var th := s.threads[e.r];
    && !th.input.PayIn?
    && (|| (Hand(th).Some? && Hand(th).value in exempt)
        || (e.ReadE? && th.input.txId in exempt && !e.dbFailed && Decide(s.store.rows, th.input).Refuse?))
  }

  ghost function StrayOf(s: State, e: Event): AtomicEvent
    requires Moves(s, e)
    requires Hand(s.threads[e.r]).Some? ==> Hand(s.threads[e.r]).value in Step(s, e).store.rows
  {
    var g, th, s' := s.store, s.threads[e.r], Step(s, e);
    var refunds, failed := s'.store.refunds, s'.store.failed;
    if Hand(th).Some? then
      Stray(e.r, th.input, Hand(th).value, AtomicRow(s', Hand(th).value), AtomicCalls(s', Hand(th).value),
            if refunds == g.refunds || refunds == [] then None else Some(LastOf(refunds)),
            if failed == g.failed || failed == [] then None else Some(LastOf(failed)), Answered(s'.threads[e.r]))
    else if !th.input.PayIn? && Decide(g.rows, th.input).Refuse? then Excuse(e.r, th.input, Decide(g.rows, th.input).error)
    else Idle
  }

  /** What a step with a transaction in hand can do at most. */
  lemma StrayFacts(s: State, e: Event)
    requires Base(s) && Moves(s, e) && Hand(s.threads[e.r]).Some?
    ensures var g, th := s.store, s.threads[e.r];
            var t, after := Hand(th).value, Act(g, th, e);
            && Answered(th).None? && t in g.rows && after.store.rows.Keys == g.rows.Keys
            && SameIdentity(g.rows[t], after.store.rows[t]) && g.rows[t].merchant == th.input.merchant
            && (!th.input.PayIn? ==> t == th.input.txId)
  {
    hide Act;
    var g, th := s.store, s.threads[e.r];
    assert PcOk(g.rows, th.input, th.pc);
    TableStep(g, th, e);
    if e.WriteE? {
      WriteRows(g, th, e);
    } else {
      RowsFixed(g, th, e);
    }
  }

  lemma StrayBooks(g: Store, th: Thread, e: Event)
    requires Ready(g, th, e) && PcOk(g.rows, th.input, th.pc) && Hand(th).Some?
    ensures var after, t := Act(g, th, e), Hand(th).value;
            && (after.store.refunds == g.refunds
                || (after.store.refunds != [] && after.store.refunds == g.refunds + [LastOf(after.store.refunds)]
                    && th.input.RefundIn? && LastOf(after.store.refunds).txId == t
                    && LastOf(after.store.refunds).merchant == th.pc.tx.merchant
                    && LastOf(after.store.refunds).amount == th.pc.tx.amount))
            && (after.store.failed == g.failed
                || (after.store.failed != [] && after.store.failed == g.failed + [LastOf(after.store.failed)]
                    && LastOf(after.store.failed).txId == t))
  {
    if e.RecordE? {
      assert (g.refunds + [th.pc.row])[|g.refunds|] == th.pc.row;
    } else if e.WriteE? || (e.CrashE? && th.pc.Writing?) {
      assert (g.failed + [th.pc.call])[|g.failed|] == th.pc.call;
    }
  }

  function LastOf<T>(s: seq<T>): T
    requires s != []
  {
    s[|s| - 1]
  }

  lemma StrayAllowed(s: State, e: Event)
    requires Base(s) && Moves(s, e) && Hand(s.threads[e.r]).Some? && !s.threads[e.r].input.PayIn?
    ensures Hand(s.threads[e.r]).value in Step(s, e).store.rows
    ensures Allowed(AtomicOf(s), StrayOf(s, e))
  {
    hide Act, AtomicRow, AtomicCalls, Base, Tellable, PcOk;
    var t := Hand(s.threads[e.r]).value;
    StrayFacts(s, e);
    KnownPc(s, e.r);
    StrayBooks(s.store, s.threads[e.r], e);
    UnansweredStays(s, e.r);
    RowsAlike(s, t);
    RowsAlike(Step(s, e), t);
    assert AtomicOf(s).rows[t] == AtomicRow(s, t);
  }

  lemma StrayRefines(s: State, e: Event)
    requires Base(s) && Moves(s, e) && Hand(s.threads[e.r]).Some? && !s.threads[e.r].input.PayIn?
    ensures Hand(s.threads[e.r]).value in Step(s, e).store.rows
    ensures Follows(s, e, StrayOf(s, e))
  {
    hide Act, AtomicRow, AtomicCalls, Base, Allowed, PcOk;
    StrayAllowed(s, e);
    StrayFacts(s, e);
    KnownPc(s, e.r);
    StrayBooks(s.store, s.threads[e.r], e);
    TablesStep(s, e);
    AnswersStep(s, e);
    UnansweredStays(s, e.r);
  }

  lemma KnownPc(s: State, r: Rid)
    requires Base(s) && r in s.threads
    ensures PcOk(s.store.rows, s.threads[r].input, s.threads[r].pc)
    ensures Hand(s.threads[r]).Some? ==> s.threads[r].pc.tx.id in s.store.rows
    ensures Hand(s.threads[r]).Some? ==> SameIdentity(s.threads[r].pc.tx, s.store.rows[s.threads[r].pc.tx.id])
  {
  }

  lemma RowsAlike(s: State, t: Id)
    requires t in s.store.rows
    ensures SameIdentity(AtomicRow(s, t), s.store.rows[t])
  {
  }

  lemma ExcuseRefines(s: State, e: Event)
    requires Moves(s, e) && Ground(s, e.r) && e.ReadE? && !e.dbFailed && !s.threads[e.r].input.PayIn?
    requires Decide(s.store.rows, s.threads[e.r].input).Refuse? && Hand(s.threads[e.r]).None?
    ensures Follows(s, e, StrayOf(s, e))
  {
    assert Quiet(s.store, s.threads[e.r], e);
    QuietTables(s, e);
    AnswersStep(s, e);
    UnansweredStays(s, e.r);
    hide Act, Ground, AtomicRow, AtomicCalls;
  }

  // ----- every step, and every run -----

  /** The event of the atomic machine behind an event of the system, for the machine that exempts some transactions. */
  ghost function EventBehind(s: State, e: Event, exempt: iset<Id>): AtomicEvent
    requires Base(s)
  {
    if Moves(s, e) && Strays(s, e, exempt) then
      BaseStep(s, e);
      StrayKnown(s, e);
      StrayOf(s, e)
    else AtomicEventOf(s, e)
  }

  lemma StrayKnown(s: State, e: Event)
    requires Base(s) && Moves(s, e)
    ensures Hand(s.threads[e.r]).Some? ==> Hand(s.threads[e.r]).value in Step(s, e).store.rows
  {
    hide Step, Act;
    BaseStep(s, e);
    KnownPc(s, e.r);
  }

  /** What holds of all transactions but the exempt. */
  ghost predicate Heeded(s: State, exempt: iset<Id>) {
    && Base(s) && LocksOk(s) && CallsOk(s) && CacheOk(s) && OwnCalls(s)
    && forall t :: t !in exempt ==> LeasedOn(s, t) && Guarded(s, t)
  }

  lemma StepRefines(s: State, e: Event, exempt: iset<Id>)
    requires Heeded(s, exempt)
    ensures Follows(s, e, EventBehind(s, e, exempt)) && Permitted(exempt, EventBehind(s, e, exempt))
  {
    hide Act, Ground, Follows, Quiet, Base, LocksOk, CallsOk, CacheOk, OwnCalls, LeasedOn, Guarded, AtomicOf;
    if !Moves(s, e) {
      StillRefines(s, e);
    } else if Strays(s, e, exempt) {
      if Hand(s.threads[e.r]).Some? {
        StrayRefines(s, e);
      } else {
        assert Ground(s, e.r) by { Grounded(s, e.r, exempt); }
        ExcuseRefines(s, e);
      }
    } else {
      assert Ground(s, e.r) by { Grounded(s, e.r, exempt); }
      MoveRefines(s, e);
      HeedfulEvent(s, e);
    }
  }

  lemma Grounded(s: State, r: Rid, exempt: iset<Id>)
    requires Heeded(s, exempt) && r in s.threads
    requires s.threads[r].input.PayIn? || (Hand(s.threads[r]).Some? ==> Hand(s.threads[r]).value !in exempt)
    ensures Ground(s, r)
  {
    hide Base, LocksOk, CallsOk, CacheOk, OwnCalls, LeasedOn, Guarded;
  }

  /** Unless it strays a step is one the machine without exemptions allows. */
  lemma HeedfulEvent(s: State, e: Event)
    requires Moves(s, e)
    ensures !AtomicEventOf(s, e).Stray? && !AtomicEventOf(s, e).Excuse?
  {
    hide Act;
  }

  lemma MoveRefines(s: State, e: Event)
    requires Moves(s, e) && Ground(s, e.r)
    requires e.ReadE? && !e.dbFailed && Decide(s.store.rows, s.threads[e.r].input).Refuse? ==>
               LeasedOn(s, s.threads[e.r].input.txId)
    ensures Refines(s, e)
  {
    hide Act, Ground, Refines, Quiet, LeasedOn;
    var g, th := s.store, s.threads[e.r];
    if e.WriteE? && !Settles(th, e) {
      RefundWriteRefines(s, e);
    } else if e.WriteE? || e.RecordE? || (e.CrashE? && Busy(th).Some?) {
      if th.pc.Writing? {
        SettleWriteRefines(s, e);
      } else {
        SettleRecordRefines(s, e);
      }
    } else if e.InsertE? && Act(g, th, e).store.rows != g.rows {
      InsertRefines(s, e);
    } else if e.CallE? && Act(g, th, e).store.log != g.log {
      CallRefines(s, e);
    } else if e.ReadE? && !e.dbFailed && Decide(g.rows, th.input).Refuse? {
      ReadRefines(s, e);
    } else {
      QuietCase(g, th, e);
      QuietRefines(s, e);
    }
  }

  /** The run of the atomic machine behind a run of the system. */
  ghost function AtomicEvents(config: Config, es: seq<Event>, exempt: iset<Id>): seq<AtomicEvent> {
    if es == [] then []
    else
      var before := es[..|es| - 1];
      BaseAlways(config, before);
      AtomicEvents(config, before, exempt) + [EventBehind(Run(config, before), es[|es| - 1], exempt)]
  }

  lemma HeededAlways(config: Config, es: seq<Event>, exempt: iset<Id>)
    requires LeasedBut(config, es, exempt)
    ensures Heeded(Run(config, es), exempt)
  {
    hide Step, Guarded, LeasedOn;
    BaseAlways(config, es);
    LocksAlways(config, es);
    CallsAlways(config, es);
    CacheAlways(config, es);
    OwnCallsAlways(config, es);
    forall t | t !in exempt ensures LeasedOn(Run(config, es), t) && Guarded(Run(config, es), t) {
      assert LeasedRunOn(config, es, t);
      SoundAlways(config, es, t);
    }
  }

  /**
   Let the critical sections on some transactions outlive their leases. The atomic machine that exempts those, and none
   but those, allows every event on the way and arrives at the state behind the run's, answers included.
   */
  lemma {:induction false} RunsAtomically(config: Config, es: seq<Event>, exempt: iset<Id>)
    requires LeasedBut(config, es, exempt)
    ensures AtomicRun(config, exempt, AtomicEvents(config, es, exempt)) == Some(AtomicOf(Run(config, es)))
  {
    if es == [] {
      assert AtomicOf(Run(config, es)) == Start(config);
    } else {
      hide Step, Heeded, AtomicOf, EventBehind, Allowed, Permitted, AtomicStep, LeasedBut, Base;
      LeasedBefore(config, es, exempt);
      var before := es[..|es| - 1];
      RunsAtomically(config, before, exempt);
      HeededAlways(config, before, exempt);
      StepRefines(Run(config, before), es[|es| - 1], exempt);
      BaseAlways(config, before);
      EventCount(config, before, exempt);
      var last := EventBehind(Run(config, before), es[|es| - 1], exempt);
      assert (AtomicEvents(config, before, exempt) + [last])[..|es| - 1] == AtomicEvents(config, before, exempt);
    }
  }

  lemma {:induction false} EventCount(config: Config, es: seq<Event>, exempt: iset<Id>)
    ensures |AtomicEvents(config, es, exempt)| == |es|
  {
    if es != [] {
      EventCount(config, es[..|es| - 1], exempt);
    }
  }

  /**
   What the atomic machine promises, brought back: of a transaction whose leases are respected, whatever happens to
   the others, the row and the failed writes account for every settled call.
   */
  lemma ToldAlways(config: Config, es: seq<Event>, t: Id)
    requires LeasedRunOn(config, es, t) && t in Run(config, es).store.rows
    ensures var s := Run(config, es); RowTold(AtomicRow(s, t), AtomicCalls(s, t), s.store.failed, t)
  {
    hide Step, AtomicRow, AtomicCalls, RowTold, LeasedRunOn;
    var exempt := AllBut(t);
    assert LeasedBut(config, es, exempt);
    RunsAtomically(config, es, exempt);
    RunTold(config, exempt, AtomicEvents(config, es, exempt));
    assert AtomicOf(Run(config, es)).rows[t] == AtomicRow(Run(config, es), t);
  }
}
