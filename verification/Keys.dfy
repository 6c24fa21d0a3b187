/** The UNIQUE idempotency key: one row and at most one opening gateway call per raw key, whatever the cache does. */
module Keys {
  import opened Domain
  import opened TransactionTable
  import opened Protocol
  import opened Safety

  /** A call that opens a payment: an authorization, or the capture of a direct charge. */
  ghost predicate Opens(rows: Rows, c: Call)
    requires c.txId in rows
  {
    c.kind == AuthorizeCall || (c.kind == CaptureCall && rows[c.txId].kind == DirectCharge)
  }

  ghost predicate LogOk(rows: Rows, log: seq<Call>) {
    forall i :: 0 <= i < |log| ==> log[i].txId in rows && log[i].amount == rows[log[i].txId].amount
  }

  ghost predicate OpensOnce(rows: Rows, log: seq<Call>)
    requires LogOk(rows, log)
  {
    forall i, j :: 0 <= i < j < |log| && Opens(rows, log[i]) && Opens(rows, log[j]) ==> log[i].txId != log[j].txId
  }

  ghost predicate Unheard(log: seq<Call>, t: Id) {
    forall i :: 0 <= i < |log| ==> log[i].txId != t
  }

  ghost predicate CallsOk(s: State) {
    && LogOk(s.store.rows, s.store.log) && OpensOnce(s.store.rows, s.store.log)
    && (forall r :: r in s.threads && s.threads[r].input.PayIn? && s.threads[r].pc.Calling? ==>
          Unheard(s.store.log, s.threads[r].pc.tx.id))
  }

  lemma LogKept(g: Store, th: Thread, e: Event)
    requires Ready(g, th, e)
    ensures Act(g, th, e).store.log == g.log
            || (e.CallE? && Act(g, th, e).store.log ==
                  g.log + [Call(KindOf(th.input), th.pc.tx.id, th.pc.tx.amount, e.response.Accept?)])
  {
  }

  lemma CallingStep(g: Store, th: Thread, e: Event)
    requires Ready(g, th, e) && TableOk(g) && th.input.PayIn? && Act(g, th, e).th.pc.Calling?
    ensures Act(g, th, e).th.pc == th.pc || Act(g, th, e).th.pc.tx.id !in g.rows
    ensures Act(g, th, e).store.log == g.log
  {
  }

  /** A call that opens a payment comes from the request that owns the row; any other finds the row past pending. */
  lemma CallerFacts(rows: Rows, th: Thread)
    requires PcOk(rows, th.input, th.pc) && th.pc.Calling?
    ensures th.pc.tx.id in rows && th.pc.tx.amount == rows[th.pc.tx.id].amount
    ensures th.input.PayIn? <==> rows[th.pc.tx.id].status == Pending
    ensures Opens(rows, Call(KindOf(th.input), th.pc.tx.id, th.pc.tx.amount, true)) <==> th.input.PayIn?
  {
  }

  lemma LogStep(rows: Rows, rows': Rows, log: seq<Call>, call: Call)
    requires LogOk(rows, log) && OpensOnce(rows, log) && RowsEvolve(rows, rows')
    ensures LogOk(rows', log) && OpensOnce(rows', log)
    ensures call.txId in rows && call.amount == rows[call.txId].amount ==> LogOk(rows, log + [call])
    ensures call.txId in rows && call.amount == rows[call.txId].amount
            && (Opens(rows, call) ==> Unheard(log, call.txId)) ==>
              OpensOnce(rows, log + [call])
  {
  }

  lemma OthersUnheard(s: State, e: Event, q: Rid)
    requires Base(s) && CallsOk(s) && Moves(s, e) && q in s.threads && q != e.r
    requires s.threads[q].input.PayIn? && s.threads[q].pc.Calling?
    ensures Unheard(Act(s.store, s.threads[e.r], e).store.log, s.threads[q].pc.tx.id)
  {
    hide Act;
    LogKept(s.store, s.threads[e.r], e);
    assert Owned(s.threads[q]) == Some(s.threads[q].pc.tx.id);
    CallerFacts(s.store.rows, s.threads[q]);
    if e.CallE? {
      CallerFacts(s.store.rows, s.threads[e.r]);
    }
  }

  lemma CallsStep(s: State, e: Event)
    requires Base(s) && CallsOk(s) && Moves(s, e)
    ensures CallsOk(Step(s, e))
  {
    hide Act, PcOk, TableOk, RowsEvolve;
    var g, th := s.store, s.threads[e.r];
    var after := Act(g, th, e);
    TableStep(g, th, e);
    LogKept(g, th, e);
    InputKept(g, th, e);
    if th.input.PayIn? && after.th.pc.Calling? {
      CallingStep(g, th, e);
    }
    var call := Call(KindOf(th.input), NIL_ID, 0, true);
    if e.CallE? {
      CallerFacts(g.rows, th);
      call := Call(KindOf(th.input), th.pc.tx.id, th.pc.tx.amount, e.response.Accept?);
    }
    LogStep(g.rows, after.store.rows, g.log, call);
    if after.store.log != g.log {
      RowsFixed(g, th, e);
    }
    forall q | q in s.threads && q != e.r && s.threads[q].input.PayIn? && s.threads[q].pc.Calling?
      ensures Unheard(after.store.log, s.threads[q].pc.tx.id)
    {
      OthersUnheard(s, e, q);
    }
  }

  lemma {:induction false} CallsAlways(config: Config, es: seq<Event>)
    ensures CallsOk(Run(config, es))
  {
    if es != [] {
      CallsAlways(config, es[..|es| - 1]);
      BaseAlways(config, es[..|es| - 1]);
      if Moves(Run(config, es[..|es| - 1]), es[|es| - 1]) {
        CallsStep(Run(config, es[..|es| - 1]), es[|es| - 1]);
      }
    }
  }

  /**
   Whatever races, crashes, expired cache rows and lost cache saves a run has, one raw key never has two rows,
   and two different gateway calls never open payments under one raw key, across Authorize and Charge.
   */
  lemma AtMostOnceByKey(config: Config, es: seq<Event>)
    ensures var g := Run(config, es).store;
            && LogOk(g.rows, g.log)
            && (forall t, u :: t in g.rows && u in g.rows && t != u ==> g.rows[t].key != g.rows[u].key)
            && (forall i, j :: 0 <= i < j < |g.log| && Opens(g.rows, g.log[i]) && Opens(g.rows, g.log[j]) ==>
                  g.rows[g.log[i].txId].key != g.rows[g.log[j].txId].key)
  {
    hide Step;
    BaseAlways(config, es);
    CallsAlways(config, es);
  }
}
