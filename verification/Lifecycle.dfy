/** The life of one row over a whole run, under any interleaving, fault, crash or expired lease. */
module Lifecycle {
  import opened Domain
  import opened Protocol
  import opened Safety

  /** The statuses a row went through during a run, without repetitions. */
  ghost function History(config: Config, es: seq<Event>, t: Id): seq<Status> {
    if t !in Run(config, es).store.rows then []
    else
      var now := Run(config, es).store.rows[t].status;
      if es == [] then [now]
      else
        var before := History(config, es[..|es| - 1], t);
        if before != [] && before[|before| - 1] == now then before else before + [now]
  }

  ghost predicate Path(kind: PaymentType, statuses: seq<Status>) {
    forall i :: 0 < i < |statuses| ==> Edge(kind, statuses[i - 1], statuses[i])
  }

  /** A row that a step makes appear is pending. */
  lemma BornPending(s: State, e: Event, t: Id)
    requires Base(s) && t !in s.store.rows && t in Step(s, e).store.rows
    ensures Step(s, e).store.rows[t].status == Pending
  {
    if Moves(s, e) && !e.InsertE? && !e.WriteE? {
      RowsFixed(s.store, s.threads[e.r], e);
    }
  }

  /** Every history is a path of the lifecycle from pending, and no longer than the rank of its end allows. */
  lemma {:induction false} HistoryIsPath(config: Config, es: seq<Event>, t: Id)
    requires t in Run(config, es).store.rows
    ensures var h, row := History(config, es, t), Run(config, es).store.rows[t];
            && h != [] && h[0] == Pending && h[|h| - 1] == row.status
            && Path(row.kind, h) && |h| <= 1 + Rank(row.status) <= 4
  {
    hide Step, Base, RowOk;
    var before := Run(config, es[..|es| - 1]);
    LastStep(config, es);
    if t in before.store.rows {
      HistoryIsPath(config, es[..|es| - 1], t);
    } else {
      BornPending(before, es[|es| - 1], t);
    }
  }

  /** What any continuation of a run does to a row it already has. */
  lemma {:induction false} RowOverTime(config: Config, es: seq<Event>, later: seq<Event>, t: Id)
    requires t in Run(config, es).store.rows
    ensures t in Run(config, es + later).store.rows
    ensures var a, b := Run(config, es).store.rows[t], Run(config, es + later).store.rows[t];
            && SameIdentity(a, b) && (a.gatewayRef.Some? ==> b.gatewayRef == a.gatewayRef) && Rank(a.status) <= Rank(b.status)
            && (a.capturedAt.Some? ==> b.capturedAt == a.capturedAt)
            && (a.status in {Failed, Voided, Refunded} ==> b == a)
  {
    hide Step;
    if later == [] {
      assert es + later == es;
    } else {
      var last := |later| - 1;
      RowOverTime(config, es, later[..last], t);
      assert (es + later)[..|es + later| - 1] == es + later[..last];
      LastStep(config, es + later);
    }
  }

  /** The columns set at insert never change, and the others agree with the status and payment type. */
  lemma FieldsAgree(config: Config, es: seq<Event>, later: seq<Event>, t: Id)
    requires t in Run(config, es).store.rows
    ensures var row := Run(config, es).store.rows[t];
            && (row.failedReason.Some? <==> row.status == Failed)
            && (row.kind == AuthorizeCapture ==> (row.capturedAt.Some? <==> row.status in {Captured, Refunded}))
            && (row.kind == DirectCharge ==> row.capturedAt.None?)
            && (row.status in {Authorized, Captured, Voided, Refunded} ==> row.gatewayRef.Some?)
            && t in Run(config, es + later).store.rows && SameIdentity(row, Run(config, es + later).store.rows[t])
            && (row.gatewayRef.Some? ==> Run(config, es + later).store.rows[t].gatewayRef == row.gatewayRef)
  {
    BaseAlways(config, es);
    RowOverTime(config, es, later, t);
  }

  /** Capture, Void and Refund never dereference an absent gateway reference, although Refund makes no check. */
  lemma NoNilReference(config: Config, es: seq<Event>, r: Rid)
    requires r in Run(config, es).threads
    ensures var th := Run(config, es).threads[r];
            !th.input.PayIn? && th.pc.Calling? ==> th.pc.tx.gatewayRef.Some?
  {
    BaseAlways(config, es);
    var s := Run(config, es);
    assert PcOk(s.store.rows, s.threads[r].input, s.threads[r].pc);
  }

  /** Charge as written always dereferences nil: a request that reached its gateway call holds a row without a reference. */
  lemma ChargeDereferencesNil(config: Config, es: seq<Event>, r: Rid, response: Response, id: Id)
    requires r in Run(config, es).threads && Run(config, es).threads[r].input.PayIn?
    requires Moves(Run(config, es), CallE(r, response, id))
    ensures var s := Run(config, es);
            var s' := Step(s, CallE(r, response, id));
            (s.threads[r].input.kind == DirectCharge && !config.chargePatched)
            <==> (s'.threads[r].pc == Done(Err(NilDereference)) && s'.store == s.store)
  {
    BaseAlways(config, es);
    ConfigKept(config, es);
    var s := Run(config, es);
    assert PcOk(s.store.rows, s.threads[r].input, s.threads[r].pc);
    var call := Call(KindOf(s.threads[r].input), s.threads[r].pc.tx.id, s.threads[r].pc.tx.amount, response.Accept?);
    assert |s.store.log + [call]| == |s.store.log| + 1;
  }

  lemma {:induction false} ConfigKept(config: Config, es: seq<Event>)
    ensures Run(config, es).store.config == config
  {
    hide Act;
    if es != [] {
      ConfigKept(config, es[..|es| - 1]);
      var s, e := Run(config, es[..|es| - 1]), es[|es| - 1];
      if Moves(s, e) {
        InputKept(s.store, s.threads[e.r], e);
      }
    }
  }

  ghost predicate ChargesStuck(s: State) {
    && (forall t :: t in s.store.rows && s.store.rows[t].kind == DirectCharge ==> s.store.rows[t].status == Pending)
    && (forall r :: r in s.threads && s.threads[r].pc.Writing? ==> s.threads[r].pc.tx.kind == AuthorizeCapture)
  }

  lemma ChargesStuckStep(s: State, e: Event)
    requires Base(s) && ChargesStuck(s) && !s.store.config.chargePatched && Moves(s, e)
    ensures ChargesStuck(Step(s, e))
  {
    hide Act, RowsOk, KeysUnique, TableOk, PcOk, Base;
    var g, th := s.store, s.threads[e.r];
    assert TableOk(g) && PcOk(g.rows, th.input, th.pc) by { Table(s, e.r); }
    TableStep(g, th, e);
    ChargeStuckAct(g, th, e);
    RefunderStuck(s, e.r);
    forall t | t in g.rows && g.rows[t].kind == DirectCharge
      ensures Act(g, th, e).store.rows[t].status == Pending
    {
      assert SameIdentity(g.rows[t], Act(g, th, e).store.rows[t]);
    }
  }

  lemma Table(s: State, r: Rid)
    requires Base(s) && r in s.threads
    ensures TableOk(s.store) && PcOk(s.store.rows, s.threads[r].input, s.threads[r].pc)
  {
  }

  /** What a Refund has in hand is not a direct charge's: those are pending. */
  lemma RefunderStuck(s: State, r: Rid)
    requires Base(s) && ChargesStuck(s) && r in s.threads
    ensures s.threads[r].input.RefundIn? && s.threads[r].pc.Calling? ==> s.threads[r].pc.tx.kind == AuthorizeCapture
    ensures var pc := s.threads[r].pc;
            pc.Writing? ==> pc.tx.id in s.store.rows && s.store.rows[pc.tx.id].kind == pc.tx.kind
  {
    assert PcOk(s.store.rows, s.threads[r].input, s.threads[r].pc);
  }

  lemma ChargeStuckAct(g: Store, th: Thread, e: Event)
    requires Ready(g, th, e) && PcOk(g.rows, th.input, th.pc) && !g.config.chargePatched
    requires th.pc.Writing? ==> th.pc.tx.kind == AuthorizeCapture
    ensures Act(g, th, e).th.pc.Writing? ==>
              Act(g, th, e).th.pc.tx.kind == AuthorizeCapture
              || (th.input.RefundIn? && th.pc.Calling? && Act(g, th, e).th.pc.tx == th.pc.tx)
    ensures forall t :: t in Act(g, th, e).store.rows && t !in g.rows ==> Act(g, th, e).store.rows[t].status == Pending
  {
  }

  /** So as written no direct charge ever leaves pending, in any run. */
  lemma {:induction false} ChargeNeverCompletes(config: Config, es: seq<Event>)
    requires !config.chargePatched
    ensures ChargesStuck(Run(config, es))
  {
    if es != [] {
      ChargeNeverCompletes(config, es[..|es| - 1]);
      BaseAlways(config, es[..|es| - 1]);
      ConfigKept(config, es[..|es| - 1]);
      if Moves(Run(config, es[..|es| - 1]), es[|es| - 1]) {
        ChargesStuckStep(Run(config, es[..|es| - 1]), es[|es| - 1]);
      }
    }
  }

  // ----- refunds -----

  ghost predicate RefundsOk(g: Store) {
    forall i :: 0 <= i < |g.refunds| ==>
      var row := g.refunds[i];
      && row.txId in g.rows && g.rows[row.txId].status == Refunded
      && row.merchant == g.rows[row.txId].merchant && row.amount == g.rows[row.txId].amount
  }

  lemma RefundsShape(g: Store, th: Thread, e: Event)
    requires Ready(g, th, e)
    ensures Act(g, th, e).store.refunds == g.refunds
            || (e.RecordE? && th.pc.Recording? && Act(g, th, e).store.refunds == g.refunds + [th.pc.row])
  {
  }

  lemma RefundsStep(s: State, e: Event)
    requires Base(s) && RefundsOk(s.store)
    ensures RefundsOk(Step(s, e).store)
  {
    hide Act, RowsOk, KeysUnique;
    if Moves(s, e) {
      var g, th := s.store, s.threads[e.r];
      assert PcOk(g.rows, th.input, th.pc);
      TableStep(g, th, e);
      RefundsShape(g, th, e);
      if e.RecordE? {
        RowsFixed(g, th, e);
      }
    }
  }

  /** A refund row's transaction is refunded, and the row agrees with it, even after missed updates and expired leases. */
  lemma {:induction false} RefundRowsImplyRefunded(config: Config, es: seq<Event>)
    ensures RefundsOk(Run(config, es).store)
  {
    if es != [] {
      RefundRowsImplyRefunded(config, es[..|es| - 1]);
      BaseAlways(config, es[..|es| - 1]);
      RefundsStep(Run(config, es[..|es| - 1]), es[|es| - 1]);
    }
  }

  /** The refund row a request has yet to insert. */
  function Due(th: Thread): Option<RefundRow> {
    match th.pc
    case Writing(_, _, _, refund) => refund
    case Recording(_, row) => Some(row)
    case _ => None
  }

  ghost predicate RefundIdsOk(s: State) {
    && (forall i :: 0 <= i < |s.store.refunds| ==> s.store.refunds[i].id in s.store.used)
    && (forall i, j :: 0 <= i < j < |s.store.refunds| ==> s.store.refunds[i].id != s.store.refunds[j].id)
    && (forall r :: r in s.threads && Due(s.threads[r]).Some? ==> Due(s.threads[r]).value.id in s.store.used)
    && (forall r, i :: r in s.threads && Due(s.threads[r]).Some? && 0 <= i < |s.store.refunds| ==>
          s.store.refunds[i].id != Due(s.threads[r]).value.id)
    && (forall r, q | r in s.threads && q in s.threads && Due(s.threads[r]).Some? && Due(s.threads[q]).Some? ::
          Due(s.threads[r]).value.id == Due(s.threads[q]).value.id ==> r == q)
  }

  /** A refund row gets its id with the gateway's acceptance and is inserted once at most. */
  lemma DueShape(g: Store, th: Thread, e: Event)
    requires Ready(g, th, e)
    ensures var after := Act(g, th, e);
            && (Due(after.th).None? || Due(after.th) == Due(th)
                || (e.CallE? && Due(after.th).value.id == e.refundId && e.refundId !in g.used
                    && e.refundId in after.store.used))
            && (after.store.refunds == g.refunds
                || (Due(th).Some? && after.store.refunds == g.refunds + [Due(th).value] && Due(after.th).None?))
  {
  }

  lemma RefundIdsStep(s: State, e: Event)
    requires RefundIdsOk(s)
    ensures RefundIdsOk(Step(s, e))
  {
    hide Act;
    if Moves(s, e) {
      hide Due;
      DueShape(s.store, s.threads[e.r], e);
      UsedGrows(s.store, s.threads[e.r], e);
    }
  }

  /** No two refund rows share an id. */
  lemma {:induction false} RefundIdsAlways(config: Config, es: seq<Event>)
    ensures RefundIdsOk(Run(config, es))
  {
    if es != [] {
      hide Step;
      RefundIdsAlways(config, es[..|es| - 1]);
      RefundIdsStep(Run(config, es[..|es| - 1]), es[|es| - 1]);
    }
  }
}
