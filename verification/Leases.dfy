/** What holds besides of a transaction on which no critical section outlives its five-second lease. */
module Leases {
  import opened Domain
  import opened TransactionTable
  import opened Protocol
  import opened Safety
  import opened Locking
  import opened Ledger
  import Keys
  import LeaseLock

  /** Every request between taking the transaction's lock and its last database write still has an unexpired lease. */
  ghost predicate LeasedOn(s: State, t: Id) {
    forall r :: r in s.threads && Critical(s.threads[r]) && s.threads[r].input.txId == t ==> Holds(s, r)
  }

  /** No critical section on the transaction outlives its lease at any moment of the run. */
  ghost predicate LeasedRunOn(config: Config, es: seq<Event>, t: Id) {
    LeasedOn(Run(config, es), t) && (es != [] ==> LeasedRunOn(config, es[..|es| - 1], t))
  }

  predicate Differ(t: Id, u: Id) {
    t != u
  }

  ghost function AllBut(t: Id): iset<Id> {
    iset u: Id | Differ(t, u)
  }

  /** The same for all transactions but the exempt. */
  ghost predicate LeasedBut(config: Config, es: seq<Event>, exempt: iset<Id>) {
    forall t :: t !in exempt ==> LeasedRunOn(config, es, t)
  }

  /** The same for all transactions. */
  ghost predicate LeasedRun(config: Config, es: seq<Event>) {
    LeasedBut(config, es, iset{})
  }

  lemma LeasedBefore(config: Config, es: seq<Event>, exempt: iset<Id>)
    requires LeasedBut(config, es, exempt) && es != []
    ensures LeasedBut(config, es[..|es| - 1], exempt)
  {
    hide Step, LeasedOn;
    var before := es[..|es| - 1];
    forall t | t !in exempt ensures LeasedRunOn(config, before, t) {
      assert LeasedRunOn(config, es, t);
    }
  }

  /** The transaction a request has in hand. */
  function Hand(th: Thread): Option<Id> {
    if th.pc.Calling? || th.pc.Writing? || th.pc.Recording? then Some(th.pc.tx.id) else None
  }

  function CallsOf(log: seq<Call>, t: Id): seq<Call> {
    if log == [] then []
    else
      var last := log[|log| - 1];
      CallsOf(log[..|log| - 1], t) + if last.txId == t then [last] else []
  }

  lemma CallsOfAppend(log: seq<Call>, c: Call, t: Id)
    ensures CallsOf(log + [c], t) == CallsOf(log, t) + if c.txId == t then [c] else []
  {
    assert (log + [c])[..|log|] == log;
  }

  lemma {:induction false} NoCallsIn(log: seq<Call>, t: Id)
    requires Keys.Unheard(log, t)
    ensures CallsOf(log, t) == []
  {
    if log != [] {
      NoCallsIn(log[..|log| - 1], t);
    }
  }

  /** The stored row is exactly the one in hand, up to the refund status already written. */
  ghost predicate RowGuarded(rows: Rows, th: Thread) {
    match th.pc
    case Calling(tx) => tx.id in rows && rows[tx.id] == tx
    case Writing(tx, _, _, _) => tx.id in rows && rows[tx.id] == tx
    case Recording(tx, _) => tx.id in rows && rows[tx.id] == tx.(status := Refunded)
    case _ => true
  }

  /** The latest gateway call on the transaction in hand is the request's own. */
  ghost predicate CallGuarded(log: seq<Call>, th: Thread) {
    match th.pc
    case Writing(tx, _, call, _) => CallsOf(log, tx.id) != [] && CallsOf(log, tx.id)[|CallsOf(log, tx.id)| - 1] == call
    case Recording(tx, _) =>
      CallsOf(log, tx.id) != []
      && CallsOf(log, tx.id)[|CallsOf(log, tx.id)| - 1] == Call(RefundCall, tx.id, tx.amount, true)
    case _ => true
  }

  /** No status write of a call on the transaction missed its row. */
  ghost predicate NoneMissed(missed: seq<Call>, t: Id) {
    forall i :: 0 <= i < |missed| ==> missed[i].txId != t
  }

  ghost predicate Guarded(s: State, t: Id) {
    && NoneMissed(s.store.missed, t)
    && forall r :: r in s.threads && Hand(s.threads[r]) == Some(t) ==>
         RowGuarded(s.store.rows, s.threads[r]) && CallGuarded(s.store.log, s.threads[r])
  }

  ghost predicate Sound(s: State, t: Id) {
    Base(s) && LocksOk(s) && Guarded(s, t)
  }

  lemma HandFacts(rows: Rows, th: Thread)
    requires PcOk(rows, th.input, th.pc) && Hand(th).Some?
    ensures Hand(th).value in rows
    ensures th.input.PayIn? ==> Owned(th) == Hand(th) && rows[Hand(th).value].status == Pending
    ensures !th.input.PayIn? ==> Critical(th) && th.input.txId == Hand(th).value && rows[Hand(th).value].status != Pending
  {
  }

  /** A transaction whose leases are respected is not in two hands. */
  lemma HandsUnique(s: State, r: Rid, q: Rid, t: Id)
    requires Base(s) && LocksOk(s) && LeasedOn(s, t)
    requires r in s.threads && q in s.threads && Hand(s.threads[r]) == Some(t) == Hand(s.threads[q])
    ensures r == q
  {
    hide PcOk;
    HandFacts(s.store.rows, s.threads[r]);
    HandFacts(s.store.rows, s.threads[q]);
  }

  /** A step changes the row and adds a call only to the transaction in hand, or inserts a new row. */
  lemma HandStep(g: Store, th: Thread, e: Event, t: Id)
    requires Ready(g, th, e) && TableOk(g) && PcOk(g.rows, th.input, th.pc)
    requires t in g.rows && Hand(th) != Some(t)
    ensures t in Act(g, th, e).store.rows && Act(g, th, e).store.rows[t] == g.rows[t]
    ensures CallsOf(Act(g, th, e).store.log, t) == CallsOf(g.log, t)
  {
    hide Act, RowsOk, KeysUnique;
    TableStep(g, th, e);
    Keys.LogKept(g, th, e);
    hide PcOk, CallsOf;
    if e.CallE? {
      CallsOfAppend(g.log, Call(KindOf(th.input), th.pc.tx.id, th.pc.tx.amount, e.response.Accept?), t);
    }
  }

  lemma ReadGuards(rows: Rows, input: Input)
    requires RowsOk(rows) && !input.PayIn? && Decide(rows, input).Proceed?
    ensures Decide(rows, input).tx.id in rows && rows[Decide(rows, input).tx.id] == Decide(rows, input).tx
  {
  }

  lemma CallGuards(g: Store, th: Thread, e: Event)
    requires Ready(g, th, e) && e.CallE? && RowGuarded(g.rows, th)
    ensures RowGuarded(Act(g, th, e).store.rows, Act(g, th, e).th)
    ensures CallGuarded(Act(g, th, e).store.log, Act(g, th, e).th)
  {
    CallsOfAppend(g.log, Call(KindOf(th.input), th.pc.tx.id, th.pc.tx.amount, e.response.Accept?), th.pc.tx.id);
  }

  lemma WriteGuards(g: Store, th: Thread, e: Event)
    requires Ready(g, th, e) && e.WriteE?
    requires RowGuarded(g.rows, th) && CallGuarded(g.log, th) && PcOk(g.rows, th.input, th.pc)
    ensures RowGuarded(Act(g, th, e).store.rows, Act(g, th, e).th)
    ensures CallGuarded(Act(g, th, e).store.log, Act(g, th, e).th)
    ensures Act(g, th, e).store.missed == g.missed
    ensures Hand(Act(g, th, e).th).Some? ==> Hand(Act(g, th, e).th) == Hand(th)
  {
  }

  lemma OtherGuards(g: Store, th: Thread, e: Event)
    requires Ready(g, th, e) && !e.ReadE? && !e.CallE? && !e.WriteE?
    requires RowGuarded(g.rows, th) && CallGuarded(g.log, th) && TableOk(g)
    ensures RowGuarded(Act(g, th, e).store.rows, Act(g, th, e).th)
    ensures CallGuarded(Act(g, th, e).store.log, Act(g, th, e).th)
  {
  }

  /** Only a status write misses, and only its own row. */
  lemma MissedStep(g: Store, th: Thread, e: Event, t: Id)
    requires Ready(g, th, e) && PcOk(g.rows, th.input, th.pc) && NoneMissed(g.missed, t)
    ensures !e.WriteE? || Hand(th) != Some(t) ==> NoneMissed(Act(g, th, e).store.missed, t)
  {
  }

  lemma HandTaken(g: Store, th: Thread, e: Event)
    requires Ready(g, th, e)
    ensures var hand := Hand(Act(g, th, e).th);
            hand.Some? ==> hand == Hand(th) || e.InsertE? || e.ReadE?
  {
  }

  lemma GuardedStep(s: State, e: Event, t: Id)
    requires Sound(s, t) && LeasedOn(s, t) && Moves(s, e)
    ensures Guarded(Step(s, e), t)
  {
    hide Act, PcOk, RowGuarded, CallGuarded, LeasedOn, Hand, NoneMissed;
    var g, th := s.store, s.threads[e.r];
    var after := Act(g, th, e);
    assert PcOk(g.rows, th.input, th.pc);
    MissedStep(g, th, e, t);
    HandTaken(g, th, e);
    if Hand(after.th) == Some(t) || Hand(th) == Some(t) {
      if e.WriteE? {
        WriteGuards(g, th, e);
      } else {
        if e.InsertE? || e.ReadE? {
          NewGuards(g, th, e);
        }
        ActorGuards(g, th, e);
      }
    }
    forall q | q in s.threads && q != e.r && Hand(s.threads[q]) == Some(t)
      ensures RowGuarded(after.store.rows, s.threads[q]) && CallGuarded(after.store.log, s.threads[q])
    {
      BystanderGuards(s, e, q, t);
    }
  }

  lemma NewGuards(g: Store, th: Thread, e: Event)
    requires Ready(g, th, e) && (e.InsertE? || e.ReadE?)
    ensures RowGuarded(g.rows, th) && CallGuarded(g.log, th)
  {
  }

  lemma ActorGuards(g: Store, th: Thread, e: Event)
    requires Ready(g, th, e) && !e.WriteE? && TableOk(g) && RowGuarded(g.rows, th) && CallGuarded(g.log, th)
    ensures RowGuarded(Act(g, th, e).store.rows, Act(g, th, e).th)
    ensures CallGuarded(Act(g, th, e).store.log, Act(g, th, e).th)
  {
    if e.ReadE? {
      if Decide(g.rows, th.input).Proceed? {
        ReadGuards(g.rows, th.input);
      }
    } else if e.CallE? {
      CallGuards(g, th, e);
    } else {
      hide Act;
      OtherGuards(g, th, e);
    }
  }

  lemma BystanderGuards(s: State, e: Event, q: Rid, t: Id)
    requires Sound(s, t) && LeasedOn(s, t) && Moves(s, e) && q in s.threads && q != e.r && Hand(s.threads[q]) == Some(t)
    ensures RowGuarded(Act(s.store, s.threads[e.r], e).store.rows, s.threads[q])
    ensures CallGuarded(Act(s.store, s.threads[e.r], e).store.log, s.threads[q])
  {
    hide Act, PcOk, LeasedOn;
    HandFacts(s.store.rows, s.threads[q]);
    if Hand(s.threads[e.r]) == Some(t) {
      HandsUnique(s, e.r, q, t);
    }
    HandStep(s.store, s.threads[e.r], e, t);
  }

  lemma SoundStep(s: State, e: Event, t: Id)
    requires Sound(s, t) && LeasedOn(s, t)
    ensures Sound(Step(s, e), t)
  {
    hide Act, LeasedOn, PcOk, RowGuarded, CallGuarded;
    BaseStep(s, e);
    LocksStep(s, e);
    if Moves(s, e) {
      GuardedStep(s, e, t);
    } else {
      NewcomerGuards(s, e, t);
    }
  }

  lemma NewcomerGuards(s: State, e: Event, t: Id)
    requires Guarded(s, t) && !Moves(s, e)
    ensures Guarded(Step(s, e), t)
  {
    hide Act;
  }

  lemma {:induction false} SoundAlways(config: Config, es: seq<Event>, t: Id)
    requires LeasedRunOn(config, es, t)
    ensures Sound(Run(config, es), t)
  {
    if es != [] {
      hide Step, Sound, LeasedOn;
      SoundAlways(config, es[..|es| - 1], t);
      SoundStep(Run(config, es[..|es| - 1]), es[|es| - 1], t);
    }
  }

  // ----- a payment's own row needs no lease -----

  /** Nobody else has in hand the row a payment inserted. */
  lemma OwnHand(s: State, r: Rid, q: Rid)
    requires Base(s) && r in s.threads && q in s.threads && s.threads[r].input.PayIn?
    requires Hand(s.threads[r]).Some? && Hand(s.threads[q]) == Hand(s.threads[r])
    ensures r == q
  {
    hide PcOk;
    HandFacts(s.store.rows, s.threads[r]);
    HandFacts(s.store.rows, s.threads[q]);
  }

  lemma OwnRow(rows: Rows, th: Thread)
    requires PcOk(rows, th.input, th.pc) && th.input.PayIn?
    ensures RowGuarded(rows, th)
  {
  }

  ghost predicate OwnCalls(s: State) {
    forall r :: r in s.threads && s.threads[r].input.PayIn? ==> CallGuarded(s.store.log, s.threads[r])
  }

  lemma OwnCallsStep(s: State, e: Event)
    requires Base(s) && OwnCalls(s) && Moves(s, e)
    ensures OwnCalls(Step(s, e))
  {
    hide Act, PcOk, RowGuarded, CallGuarded, RowsOk, KeysUnique;
    var g, th := s.store, s.threads[e.r];
    assert PcOk(g.rows, th.input, th.pc);
    InputKept(g, th, e);
    if th.input.PayIn? {
      OwnRow(g.rows, th);
      if e.WriteE? {
        WriteGuards(g, th, e);
      } else {
        ActorGuards(g, th, e);
      }
    }
    forall q | q in s.threads && q != e.r && s.threads[q].input.PayIn?
      ensures CallGuarded(Act(g, th, e).store.log, s.threads[q])
    {
      OwnBystander(s, e, q);
    }
  }

  lemma OwnBystander(s: State, e: Event, q: Rid)
    requires Base(s) && Moves(s, e) && q in s.threads && q != e.r && s.threads[q].input.PayIn?
    requires CallGuarded(s.store.log, s.threads[q])
    ensures CallGuarded(Act(s.store, s.threads[e.r], e).store.log, s.threads[q])
  {
    hide Act, PcOk;
    if Hand(s.threads[q]).Some? {
      if Hand(s.threads[e.r]) == Hand(s.threads[q]) {
        OwnHand(s, q, e.r);
      }
      HandFacts(s.store.rows, s.threads[q]);
      HandStep(s.store, s.threads[e.r], e, Hand(s.threads[q]).value);
    }
  }

  lemma {:induction false} OwnCallsAlways(config: Config, es: seq<Event>)
    ensures OwnCalls(Run(config, es))
  {
    hide Act;
    if es != [] {
      OwnCallsAlways(config, es[..|es| - 1]);
      BaseAlways(config, es[..|es| - 1]);
      if Moves(Run(config, es[..|es| - 1]), es[|es| - 1]) {
        OwnCallsStep(Run(config, es[..|es| - 1]), es[|es| - 1]);
      }
    }
  }

  // ----- what leases buy -----

  /** Every conditional update finds its row exactly as read, so ignoring the number of rows it changed is sound. */
  lemma UpdatesNeverMiss(config: Config, es: seq<Event>, r: Rid, fault: Fault)
    requires Moves(Run(config, es), WriteE(r, fault)) && fault != NotApplied
    requires LeasedRunOn(config, es, Run(config, es).threads[r].pc.tx.id)
    ensures var s, s' := Run(config, es), Step(Run(config, es), WriteE(r, fault));
            var tx, patch := s.threads[r].pc.tx, s.threads[r].pc.patch;
            && NoneMissed(s.store.missed, tx.id) && s'.store.missed == s.store.missed
            && tx.id in s.store.rows && s.store.rows[tx.id] == tx && tx.status == GuardOf(s.threads[r].input)
            && s'.store.rows == s.store.rows[tx.id := Patched(tx, patch)]
            && (fault == NoFault && !s.threads[r].input.RefundIn? ==>
                  s'.threads[r].pc == Finish(s.threads[r].input, UpdateReply(patch, TxOutput(tx.id, Tx(patch.status)))))
  {
    SoundAlways(config, es, Run(config, es).threads[r].pc.tx.id);
    var s := Run(config, es);
    assert RowGuarded(s.store.rows, s.threads[r]) && PcOk(s.store.rows, s.threads[r].input, s.threads[r].pc);
  }

  /** For Authorize and Charge the same holds in every run, leases or not: nobody else can change a pending row. */
  lemma OwnUpdatesNeverMiss(config: Config, es: seq<Event>, r: Rid, fault: Fault)
    requires Moves(Run(config, es), WriteE(r, fault)) && fault != NotApplied && Run(config, es).threads[r].input.PayIn?
    ensures var s, s' := Run(config, es), Step(Run(config, es), WriteE(r, fault));
            var tx, patch := s.threads[r].pc.tx, s.threads[r].pc.patch;
            && s'.store.missed == s.store.missed
            && tx.id in s.store.rows && s.store.rows[tx.id] == tx && tx.status == Pending
            && s'.store.rows == s.store.rows[tx.id := Patched(tx, patch)]
            && (fault == NoFault ==> s'.threads[r].pc == Done(UpdateReply(patch, TxOutput(tx.id, Tx(patch.status)))))
  {
    BaseAlways(config, es);
    var s := Run(config, es);
    assert PcOk(s.store.rows, s.threads[r].input, s.threads[r].pc);
  }

  /** With no missed writes the money at the gateway is the captured rows, the requests in flight and the failed writes. */
  lemma LeasedMoney(config: Config, es: seq<Event>)
    requires LeasedRun(config, es)
    ensures var s := Run(config, es);
            Total(s.store.log, Money)
            == Sums.Sum(s.store.rows, Kept) + Sums.Sum(s.threads, Unwritten) + Total(s.store.failed, Money)
  {
    hide Step;
    var missed := Run(config, es).store.missed;
    if missed != [] {
      assert LeasedRunOn(config, es, missed[0].txId);
      SoundAlways(config, es, missed[0].txId);
    }
    MoneyConserved(config, es);
  }

  /** No two critical sections on one transaction overlap. */
  lemma MutualExclusion(config: Config, es: seq<Event>, r: Rid, q: Rid)
    requires r in Run(config, es).threads && q in Run(config, es).threads
    requires Critical(Run(config, es).threads[r]) && Critical(Run(config, es).threads[q])
    requires Run(config, es).threads[r].input.txId == Run(config, es).threads[q].input.txId
    requires LeasedOn(Run(config, es), Run(config, es).threads[r].input.txId)
    ensures r == q
  {
    hide Step;
    OneHolder(config, es, r, q);
  }

  // ----- the hypothesis can be met -----

  ghost predicate LeasesAhead(s: State) {
    forall r :: r in s.threads && s.threads[r].lease.Some? ==> s.threads[r].lease.value.expires >= LeaseLock.LOCK_TTL
  }

  lemma LeaseShape(g: Store, th: Thread, e: Event)
    requires Ready(g, th, e)
    ensures var lease := Act(g, th, e).th.lease;
            lease == th.lease || lease.None? || lease.value.expires == g.now + LeaseLock.LOCK_TTL
  {
  }

  lemma {:induction false} LeasesAheadAlways(config: Config, es: seq<Event>)
    ensures LeasesAhead(Run(config, es))
  {
    if es != [] {
      hide Act;
      LeasesAheadAlways(config, es[..|es| - 1]);
      var s, e := Run(config, es[..|es| - 1]), es[|es| - 1];
      if Moves(s, e) {
        LeaseShape(s.store, s.threads[e.r], e);
      }
    }
  }

  lemma ClockRuns(s: State, e: Event)
    ensures s.store.now <= Step(s, e).store.now
  {
    hide Act;
    if Moves(s, e) {
      InputKept(s.store, s.threads[e.r], e);
    }
  }

  lemma {:induction false} ShortRunLeasedOn(config: Config, es: seq<Event>, t: Id)
    requires Run(config, es).store.now < LeaseLock.LOCK_TTL
    ensures LeasedRunOn(config, es, t)
  {
    hide Step;
    LocksAlways(config, es);
    LeasesAheadAlways(config, es);
    if es != [] {
      ClockRuns(Run(config, es[..|es| - 1]), es[|es| - 1]);
      ShortRunLeasedOn(config, es[..|es| - 1], t);
    }
  }

  /** Whatever happens in its first five seconds, the system respects all leases. */
  lemma ShortRunLeased(config: Config, es: seq<Event>)
    requires Run(config, es).store.now < 5
    ensures LeasedRun(config, es)
  {
    hide Step, LeasedRunOn;
    forall t ensures LeasedRunOn(config, es, t) {
      ShortRunLeasedOn(config, es, t);
    }
  }
}
