/** Every external call of every run keeps its promise, and what follows from that from a request's start to its replay. */
module Outcomes {
  import opened Domain
  import opened Protocol
  import opened Safety
  import opened Leases
  import opened Caching
  import opened Promises
  import Answers
  import Lifecycle
  import Locking

  // ----- one call -----

  /** An insert under a free key stores the request's own columns, and nothing else in the table changes. */
  lemma InsertKept(config: Config, es: seq<Event>, r: Rid, id: Id, fault: Fault)
    requires Moves(Run(config, es), InsertE(r, id, fault))
    ensures var s, s' := Run(config, es), Step(Run(config, es), InsertE(r, id, fault));
            InsertPromise(s.store.rows, s'.store.rows, s.threads[r].input, id, fault, s'.threads[r].pc)
  {
    BaseAlways(config, es);
    var s, s' := Run(config, es), Step(Run(config, es), InsertE(r, id, fault));
    assert id !in s.store.rows;
    if s'.store.rows != s.store.rows {
      assert s'.store.rows - {id} == s.store.rows;
    }
  }

  /** A read under the lock goes on, or is refused, exactly as the stored row and its owner demand. */
  lemma ReadKept(config: Config, es: seq<Event>, r: Rid, dbFailed: bool)
    requires Moves(Run(config, es), ReadE(r, dbFailed))
    ensures var s, s' := Run(config, es), Step(Run(config, es), ReadE(r, dbFailed));
            s'.store == s.store && ReadPromise(s.store.rows, s.threads[r].input, dbFailed, s'.threads[r].pc)
  {
    BaseAlways(config, es);
    var s := Run(config, es);
    if Owns(s.store.rows, s.threads[r].input) {
      assert RowOk(s.store.rows[s.threads[r].input.txId]);
    }
  }

  /** A call that does not panic is logged as asked, and its outcome decides what is to be written or answered. */
  lemma CallKept(config: Config, es: seq<Event>, r: Rid, response: Response, refundId: Id)
    requires Moves(Run(config, es), CallE(r, response, refundId))
    ensures var s, s' := Run(config, es), Step(Run(config, es), CallE(r, response, refundId));
            var th, tx, next := s.threads[r], s.threads[r].pc.tx, s'.threads[r].pc;
            if th.input.PayIn? && th.input.kind == DirectCharge && !config.chargePatched then
              next == Done(Err(NilDereference)) && s'.store == s.store
            else
              && CallPromise(th.input, tx, response, refundId, s.store.now, next)
              && s'.store.rows == s.store.rows && s'.store.log != [] && s'.store.log[..|s'.store.log| - 1] == s.store.log
              && LoggedAs(th.input, tx, response, s'.store.log[|s'.store.log| - 1])
  {
    BaseAlways(config, es);
    Lifecycle.ConfigKept(config, es);
    var s := Run(config, es);
    assert PcOk(s.store.rows, s.threads[r].input, s.threads[r].pc);
    CallActs(s.store, s.threads[r], CallE(r, response, refundId));
  }

  lemma CallActs(g: Store, th: Thread, e: Event)
    requires Ready(g, th, e) && e.CallE? && PcOk(g.rows, th.input, th.pc)
    ensures var after, tx := Act(g, th, e), th.pc.tx;
            if th.input.PayIn? && th.input.kind == DirectCharge && !g.config.chargePatched then
              after.th.pc == Done(Err(NilDereference)) && after.store == g
            else
              && CallPromise(th.input, tx, e.response, e.refundId, g.now, after.th.pc)
              && after.store.rows == g.rows && after.store.log != [] && after.store.log[..|after.store.log| - 1] == g.log
              && LoggedAs(th.input, tx, e.response, after.store.log[|after.store.log| - 1])
  {
  }

  /** A status write changes the one row it asks for, if that has the status it asks for, and answers accordingly. */
  lemma WriteKept(config: Config, es: seq<Event>, r: Rid, fault: Fault)
    requires Moves(Run(config, es), WriteE(r, fault))
    ensures var s, s' := Run(config, es), Step(Run(config, es), WriteE(r, fault));
            var th := s.threads[r];
            && UpdatePromise(s.store.rows, s'.store.rows, th.input, th.pc.tx.id, th.pc.patch, fault)
            && WritePromise(config, s.store.rows, th, fault, s'.threads[r])
  {
    BaseAlways(config, es);
    Lifecycle.ConfigKept(config, es);
    ParsedAlways(config, es);
    var s := Run(config, es);
    assert PcOk(s.store.rows, s.threads[r].input, s.threads[r].pc);
    WriteActs(s.store, s.threads[r], WriteE(r, fault));
    hide Act;
  }

  lemma WriteActs(g: Store, th: Thread, e: Event)
    requires Ready(g, th, e) && e.WriteE? && RowsOk(g.rows) && PcOk(g.rows, th.input, th.pc) && Parsed(g.config, th)
    ensures UpdatePromise(g.rows, Act(g, th, e).store.rows, th.input, th.pc.tx.id, th.pc.patch, e.fault)
    ensures WritePromise(g.config, g.rows, th, e.fault, Act(g, th, e).th)
  {
    UpdateActs(g, th, e);
    ReplyActs(g, th, e);
  }

  lemma UpdateActs(g: Store, th: Thread, e: Event)
    requires Ready(g, th, e) && e.WriteE?
    ensures UpdatePromise(g.rows, Act(g, th, e).store.rows, th.input, th.pc.tx.id, th.pc.patch, e.fault)
  {
    WriteRows(g, th, e);
    hide Act;
  }

  lemma ReplyActs(g: Store, th: Thread, e: Event)
    requires Ready(g, th, e) && e.WriteE? && RowsOk(g.rows) && PcOk(g.rows, th.input, th.pc) && Parsed(g.config, th)
    ensures WritePromise(g.config, g.rows, th, e.fault, Act(g, th, e).th)
  {
  }

  /** A refund's row is inserted as it stands, and its id answered. */
  lemma RecordKept(config: Config, es: seq<Event>, r: Rid, fault: Fault)
    requires Moves(Run(config, es), RecordE(r, fault))
    ensures var s, s' := Run(config, es), Step(Run(config, es), RecordE(r, fault));
            && s'.store.refunds == (if fault == NotApplied then s.store.refunds else s.store.refunds + [s.threads[r].pc.row])
            && RecordPromise(config, s.threads[r], fault, s'.threads[r])
  {
    BaseAlways(config, es);
    var s := Run(config, es);
    assert PcOk(s.store.rows, s.threads[r].input, s.threads[r].pc);
  }

  /** A lookup replays an unexpired response of the merchant's under the key, and goes on otherwise. */
  lemma LookupKept(config: Config, es: seq<Event>, r: Rid, dbFailed: bool)
    requires Moves(Run(config, es), LookupE(r, dbFailed))
    ensures var s, s' := Run(config, es), Step(Run(config, es), LookupE(r, dbFailed));
            var input := s.threads[r].input;
            && (input.PayIn? || input.RefundIn?) && s'.store == s.store
            && LookupPromise(config, s.store.cache, s.store.now, input, dbFailed, s'.threads[r].pc)
  {
    BaseAlways(config, es);
    Lifecycle.ConfigKept(config, es);
    var s := Run(config, es);
    assert PcOk(s.store.rows, s.threads[r].input, s.threads[r].pc);
  }

  /** A background save stores the response under an unused key for a day. */
  lemma SaveKept(config: Config, es: seq<Event>, r: Rid, applied: bool)
    requires Moves(Run(config, es), SaveE(r, applied))
    ensures var s, s' := Run(config, es), Step(Run(config, es), SaveE(r, applied));
            && SavePromise(s.store.cache, s'.store.cache, s.threads[r].input.merchant, s.threads[r].saving.value,
                           s.store.now, applied)
            && s'.threads[r] == s.threads[r].(saving := None)
  {
  }

  /** Only a free key is taken, for five seconds; a held one is refused with the client's error or as a duplicate. */
  lemma AcquireKept(config: Config, es: seq<Event>, r: Rid, token: Id, fault: Fault)
    requires Moves(Run(config, es), AcquireE(r, token, fault))
    ensures var s, s' := Run(config, es), Step(Run(config, es), AcquireE(r, token, fault));
            AcquirePromise(config, s.store.locks, s'.store.locks, s.threads[r].input.txId, token, s.store.now, fault,
                           s'.threads[r])
  {
    Lifecycle.ConfigKept(config, es);
  }

  /** A release that reaches Redis removes the caller's own unexpired lease and nothing else; the answer stands. */
  lemma ReleaseKept(config: Config, es: seq<Event>, r: Rid, applied: bool)
    requires Moves(Run(config, es), ReleaseE(r, applied)) && Run(config, es).threads[r].lease.Some?
    ensures var s, s' := Run(config, es), Step(Run(config, es), ReleaseE(r, applied));
            && ReleasePromise(s.store.locks, s'.store.locks, s.threads[r].input.txId, s.threads[r].lease.value.token,
                              s.store.now, applied)
            && s'.threads[r].pc == Done(s.threads[r].pc.reply)
            && (applied ==> s'.threads[r].lease == None)
            && (applied ==> !Locking.Holds(s', r))
  {
  }

  // ----- what a request was refused the lock with -----

  /** While somebody holds an unexpired lease a request is told so, as the client or the service puts it. */
  lemma RefusedWhileHeld(config: Config, es: seq<Event>, r: Rid, token: Id)
    requires Moves(Run(config, es), AcquireE(r, token, NoFault))
    requires Locking.SomebodyHolds(Run(config, es), Run(config, es).threads[r].input.txId)
    ensures Step(Run(config, es), AcquireE(r, token, NoFault)).threads[r].pc
            == Done(Err(if config.nilIsError then RedisNil else DuplicateRequest))
  {
    AcquireKept(config, es, r, token, NoFault);
    hide Step;
    var q :| Locking.HoldsOn(Run(config, es), q, Run(config, es).threads[r].input.txId);
    Locking.OneHolder(config, es, q, q);
  }

  /** A lock store error is answered only when the command that asked for the lock failed or was not acknowledged. */
  lemma StoreErrorOnlyIf(s: State, e: Event)
    requires Moves(s, e) && Answered(s.threads[e.r]).None?
    requires Answered(Step(s, e).threads[e.r]) == Some(Err(LockStore))
    ensures e.AcquireE? && e.fault != NoFault
  {
  }

  // ----- every request that took the lock passes through a release -----

  /** Whoever leaves its critical section with an answer has the lock still to release. */
  lemma ExitsToRelease(s: State, e: Event)
    requires Moves(s, e) && Locking.Critical(s.threads[e.r]) && !Locking.Critical(Step(s, e).threads[e.r])
    ensures Step(s, e).threads[e.r].pc.Releasing? || e.CrashE?
  {
  }

  /** And only a release, or death, ends that. */
  lemma ReleasingUntil(s: State, e: Event)
    requires Moves(s, e) && s.threads[e.r].pc.Releasing? && !Step(s, e).threads[e.r].pc.Releasing?
    ensures (e.ReleaseE? || e.CrashE?) && Step(s, e).threads[e.r].pc == Done(s.threads[e.r].pc.reply)
  {
  }

  // ----- keys that got past the lookup parse -----

  predicate Parsed(config: Config, th: Thread) {
    th.input.PayIn? && (th.pc.Tokenize? || th.pc.Insert? || th.pc.Calling? || th.pc.Writing?) ==>
      config.parse(th.input.key).Some?
  }

  lemma ParsedActs(g: Store, th: Thread, e: Event)
    requires Ready(g, th, e) && Parsed(g.config, th) && PcOk(g.rows, th.input, th.pc)
    ensures Parsed(g.config, Act(g, th, e).th)
  {
  }

  lemma {:induction false} ParsedAlways(config: Config, es: seq<Event>)
    ensures forall r :: r in Run(config, es).threads ==> Parsed(config, Run(config, es).threads[r])
  {
    if es != [] {
      hide Act;
      var s, e := Run(config, es[..|es| - 1]), es[|es| - 1];
      ParsedAlways(config, es[..|es| - 1]);
      BaseAlways(config, es[..|es| - 1]);
      Lifecycle.ConfigKept(config, es[..|es| - 1]);
      if Moves(s, e) {
        assert PcOk(s.store.rows, s.threads[e.r].input, s.threads[e.r].pc);
        ParsedActs(s.store, s.threads[e.r], e);
      }
    }
  }

  // ----- from answer to replay -----

  /** Ok or Rejected with the output: an answer of the operation's own. */
  predicate Told(th: Thread, out: Output) {
    Answered(th) == Some(Ok(out)) || Answered(th) == Some(Rejected(out))
  }

  lemma CompletionActs(g: Store, th: Thread, e: Event, out: Output)
    requires Ready(g, th, e) && PcOk(g.rows, th.input, th.pc) && Parsed(g.config, th)
    requires Answered(th).None? && Told(Act(g, th, e).th, out)
    ensures SavingPromise(g.config, th.input, out, Act(g, th, e).th.saving) || th.input.CaptureIn? || th.input.VoidIn?
    ensures th.input.PayIn? ==> e.WriteE?
  {
  }

  /** The step that completes a payment or refund hands its output to be saved, under the request's own key. */
  lemma CompletionSaved(config: Config, es: seq<Event>, e: Event, out: Output)
    requires Moves(Run(config, es), e) && Answered(Run(config, es).threads[e.r]).None?
    requires Told(Step(Run(config, es), e).threads[e.r], out)
    requires Run(config, es).threads[e.r].input.PayIn? || Run(config, es).threads[e.r].input.RefundIn?
    ensures var input, saving := Run(config, es).threads[e.r].input, Step(Run(config, es), e).threads[e.r].saving;
            && saving.Some? && saving.value.response == out
            && (if input.PayIn? then config.parse(input.key) == Some(saving.value.key)
                else input.idemKey == saving.value.key)
  {
    BaseAlways(config, es);
    ParsedAlways(config, es);
    Lifecycle.ConfigKept(config, es);
    var s := Run(config, es);
    assert PcOk(s.store.rows, s.threads[e.r].input, s.threads[e.r].pc);
    CompletionActs(s.store, s.threads[e.r], e, out);
    hide Act;
  }

  /** What was handed to be saved waits for its save, whatever else happens. */
  lemma SavingWaits(config: Config, es: seq<Event>, e: Event, r: Rid)
    requires r in Run(config, es).threads && Run(config, es).threads[r].saving.Some?
    requires !(e.SaveE? && e.r == r)
    ensures r in Step(Run(config, es), e).threads
    ensures Step(Run(config, es), e).threads[r].saving == Run(config, es).threads[r].saving
    ensures Answered(Step(Run(config, es), e).threads[r]) == Answered(Run(config, es).threads[r])
  {
    hide Act, CacheOk, Run, Answered;
    CacheAlways(config, es);
    var s := Run(config, es);
    SavingGenuine(s, r);
    if Moves(s, e) && e.r == r {
      SavingActs(s.store, s.threads[e.r], e);
    }
  }

  lemma SavingActs(g: Store, th: Thread, e: Event)
    requires Ready(g, th, e) && th.saving.Some? && Answered(th).Some? && !e.SaveE?
    ensures Act(g, th, e).th.saving == th.saving && Answered(Act(g, th, e).th) == Answered(th)
  {
  }

  /**
   Once the output a payment or refund answered is saved under an unused key, every later lookup by the merchant under
   that key replays it for a day, whatever happens in the meantime.
   */
  lemma AnswerReplayed(config: Config, es: seq<Event>, r: Rid, later: seq<Event>, q: Rid, key: Id, out: Output)
    requires Moves(Run(config, es), SaveE(r, true)) && Told(Run(config, es).threads[r], out)
    requires SavedUnder(config, Run(config, es).threads[r].input, key) && key !in Run(config, es).store.cache
    requires Moves(Run(config, es + [SaveE(r, true)] + later), LookupE(q, false))
    requires var asked, again := Run(config, es).threads[r].input, Run(config, es + [SaveE(r, true)] + later).threads[q].input;
             again.merchant == asked.merchant && (again.PayIn? <==> asked.PayIn?) && SavedUnder(config, again, key)
    requires Run(config, es + [SaveE(r, true)] + later).store.now < Run(config, es).store.now + 24 * 60 * 60
    ensures Step(Run(config, es + [SaveE(r, true)] + later), LookupE(q, false)).threads[q].pc == Done(Replay(out))
  {
    hide Step;
    var s, all := Run(config, es), es + [SaveE(r, true)] + later;
    CacheAlways(config, es);
    Lifecycle.ConfigKept(config, es);
    SavedForADay(config, es, r, later, s.threads[r].input.merchant);
    LookupKept(config, all, q, false);
  }

  // ----- a payment does what it was asked -----

  /** The call that opened the payment, for the amount asked, accepted or not. */
  predicate Opening(c: Call, input: Input, t: Id, accepted: bool)
    requires input.PayIn?
  {
    && c.txId == t && c.amount == input.amount && c.accepted == accepted
    && c.kind == if input.kind == AuthorizeCapture then AuthorizeCall else CaptureCall
  }

  ghost predicate Opened(log: seq<Call>, input: Input, t: Id, accepted: bool)
    requires input.PayIn?
  {
    exists i :: 0 <= i < |log| && Opening(log[i], input, t, accepted)
  }

  ghost predicate OpenedAsTold(s: State) {
    forall r, out :: r in s.threads && s.threads[r].input.PayIn? && Told(s.threads[r], out) ==>
      Opened(s.store.log, s.threads[r].input, out.id, Answered(s.threads[r]).value.Ok?)
  }

  lemma {:induction false} LastLogged(log: seq<Call>, t: Id) returns (i: nat)
    requires CallsOf(log, t) != []
    ensures i < |log| && log[i] == CallsOf(log, t)[|CallsOf(log, t)| - 1]
  {
    i := |log| - 1;
    if log[i].txId != t {
      assert CallsOf(log, t) == CallsOf(log[..i], t);
      i := LastLogged(log[..i], t);
    }
  }

  lemma PaymentWrites(g: Store, th: Thread, e: Event, out: Output)
    requires Ready(g, th, e) && e.WriteE? && th.input.PayIn? && RowsOk(g.rows) && PcOk(g.rows, th.input, th.pc)
    requires CallGuarded(g.log, th) && Told(Act(g, th, e).th, out)
    ensures Opened(Act(g, th, e).store.log, th.input, out.id, Answered(Act(g, th, e).th).value.Ok?)
  {
    var i := LastLogged(g.log, th.pc.tx.id);
    assert Act(g, th, e).store.log == g.log;
    assert Opening(g.log[i], th.input, out.id, Answered(Act(g, th, e).th).value.Ok?);
  }

  lemma OpenedStays(log: seq<Call>, log': seq<Call>, input: Input, t: Id, accepted: bool)
    requires input.PayIn? && log <= log' && Opened(log, input, t, accepted)
    ensures Opened(log', input, t, accepted)
  {
    var i :| 0 <= i < |log| && Opening(log[i], input, t, accepted);
    assert log'[i] == log[i];
  }

  lemma OpenedStep(config: Config, es: seq<Event>, e: Event)
    requires OpenedAsTold(Run(config, es))
    ensures OpenedAsTold(Step(Run(config, es), e))
  {
    hide Act, PcOk, CallGuarded, Opened, Answered, Run;
    var s := Run(config, es);
    BaseAlways(config, es);
    OwnCallsAlways(config, es);
    ParsedAlways(config, es);
    Lifecycle.ConfigKept(config, es);
    StepGrows(s, e);
    var s' := Step(s, e);
    forall r, out | r in s'.threads && s'.threads[r].input.PayIn? && Told(s'.threads[r], out)
      ensures Opened(s'.store.log, s'.threads[r].input, out.id, Answered(s'.threads[r]).value.Ok?)
    {
      if r in s.threads && Answered(s.threads[r]).Some? {
        OpenedStays(s.store.log, s'.store.log, s.threads[r].input, out.id, Answered(s.threads[r]).value.Ok?);
      } else if Moves(s, e) && r == e.r {
        assert PcOk(s.store.rows, s.threads[r].input, s.threads[r].pc);
        CompletionActs(s.store, s.threads[r], e, out);
        PaymentWrites(s.store, s.threads[r], e, out);
      } else {
        NotYet(s, e, r);
      }
    }
  }

  lemma NotYet(s: State, e: Event, r: Rid)
    requires r in Step(s, e).threads && !(Moves(s, e) && r == e.r)
    requires r in s.threads ==> Answered(s.threads[r]).None?
    ensures Answered(Step(s, e).threads[r]).None?
  {
    hide Act;
  }

  lemma {:induction false} OpenedAlways(config: Config, es: seq<Event>)
    ensures OpenedAsTold(Run(config, es))
  {
    if es != [] {
      hide Step;
      OpenedAlways(config, es[..|es| - 1]);
      OpenedStep(config, es[..|es| - 1], es[|es| - 1]);
    } else {
      assert Run(config, es).threads == map[];
    }
  }

  /**
   In every run a payment told a success or a rejection names a row with the merchant, key, type, amount and currency it
   asked for, and the gateway was asked to open it with that amount: it accepted if and only if the answer is a success.
   */
  lemma PaymentAsAsked(config: Config, es: seq<Event>, r: Rid, out: Output)
    requires r in Run(config, es).threads && Run(config, es).threads[r].input.PayIn?
    requires Told(Run(config, es).threads[r], out)
    ensures var g, input := Run(config, es).store, Run(config, es).threads[r].input;
            && out.id in g.rows && g.rows[out.id].merchant == input.merchant && g.rows[out.id].key == input.key
            && g.rows[out.id].kind == input.kind
            && g.rows[out.id].amount == input.amount && g.rows[out.id].currency == input.currency
            && Opened(g.log, input, out.id, Answered(Run(config, es).threads[r]).value.Ok?)
  {
    hide Step, Opened;
    OpenedAlways(config, es);
    Answers.AnswersAlways(config, es, r);
  }

  // ----- every row was asked for -----

  ghost predicate Asked(s: State, t: Id)
    requires t in s.store.rows
  {
    exists r :: r in s.threads && AsAsked(s.store.rows[t], s.threads[r].input)
  }

  lemma AskedStep(config: Config, es: seq<Event>, e: Event, t: Id)
    requires t in Step(Run(config, es), e).store.rows
    requires t in Run(config, es).store.rows ==> Asked(Run(config, es), t)
    ensures Asked(Step(Run(config, es), e), t)
  {
    var s, s' := Run(config, es), Step(Run(config, es), e);
    BaseAlways(config, es);
    if t in s.store.rows {
      hide Act, Run;
      StepGrows(s, e);
      var r :| r in s.threads && AsAsked(s.store.rows[t], s.threads[r].input);
      assert AsAsked(s'.store.rows[t], s'.threads[r].input);
    } else {
      NewAsked(s, e, t);
    }
  }

  lemma NewAsked(s: State, e: Event, t: Id)
    requires Base(s) && t !in s.store.rows && t in Step(s, e).store.rows
    ensures Asked(Step(s, e), t)
  {
    if Moves(s, e) && !e.InsertE? && !e.WriteE? {
      RowsFixed(s.store, s.threads[e.r], e);
    }
    assert AsAsked(Step(s, e).store.rows[t], Step(s, e).threads[e.r].input);
  }

  /** In every run every row carries the merchant, key, type, amount and currency of a request that asked for it. */
  lemma {:induction false} RowsAsked(config: Config, es: seq<Event>, t: Id)
    requires t in Run(config, es).store.rows
    ensures Asked(Run(config, es), t)
  {
    if es != [] {
      hide Step, Asked;
      var before := es[..|es| - 1];
      if t in Run(config, before).store.rows {
        RowsAsked(config, before, t);
      }
      AskedStep(config, before, es[|es| - 1], t);
    }
  }

  // ----- from the gateway's outcome to the row -----

  ghost predicate NoneBy(es: seq<Event>, r: Rid) {
    forall i :: 0 <= i < |es| ==> es[i].Tick? || es[i].r != r
  }

  /** Whatever the others do, a request stands where it stood. */
  lemma {:induction false} StandsStill(config: Config, es: seq<Event>, between: seq<Event>, r: Rid)
    requires r in Run(config, es).threads && NoneBy(between, r)
    ensures r in Run(config, es + between).threads
    ensures Run(config, es + between).threads[r] == Run(config, es).threads[r]
  {
    if between == [] {
      assert es + between == es;
    } else {
      hide Act;
      var last := |between| - 1;
      StandsStill(config, es, between[..last], r);
      assert (es + between)[..|es + between| - 1] == es + between[..last];
    }
  }

  /**
   From call to row: a status write that finds its row, however long after the call, leaves the gateway's own message on
   a declined one and the time of the call on a captured one; so it does for every payment.
   */
  lemma CallLands(config: Config, es: seq<Event>, r: Rid, response: Response, refundId: Id, between: seq<Event>)
    requires Moves(Run(config, es), CallE(r, response, refundId)) && NoneBy(between, r)
    requires Moves(Run(config, es + [CallE(r, response, refundId)] + between), WriteE(r, NoFault))
    ensures var s, w := Run(config, es), Run(config, es + [CallE(r, response, refundId)] + between);
            var input, t, rows' := s.threads[r].input, s.threads[r].pc.tx.id, Step(w, WriteE(r, NoFault)).store.rows;
            && (input.PayIn? ==> Hit(w.store.rows, input, t))
            && (Hit(w.store.rows, input, t) ==>
                  && t in rows'
                  && (response.Declined? ==> rows'[t].status == Failed && rows'[t].failedReason == Some(response.message))
                  && (response.Empty? ==> rows'[t].status == Failed && rows'[t].failedReason == Some("empty gateway response"))
                  && (response.Accept? && input.PayIn? ==> rows'[t].gatewayRef == Some(response.ref))
                  && (response.Accept? && input.CaptureIn? ==> rows'[t].capturedAt == Some(s.store.now)))
  {
    hide Step;
    var e, all := CallE(r, response, refundId), es + [CallE(r, response, refundId)] + between;
    var s, w := Run(config, es), Run(config, all);
    assert (es + [e])[..|es|] == es;
    CallKept(config, es, r, response, refundId);
    StillThere(s, e);
    StandsStill(config, es + [e], between, r);
    WriteKept(config, all, r, NoFault);
    BaseAlways(config, all);
    assert PcOk(w.store.rows, w.threads[r].input, w.threads[r].pc);
  }

  lemma StillThere(s: State, e: Event)
    requires Moves(s, e)
    ensures e.r in Step(s, e).threads && Step(s, e).threads[e.r].input == s.threads[e.r].input
  {
    hide Act;
    InputKept(s.store, s.threads[e.r], e);
  }
}
