/** What holds in every reachable state, with no assumption on leases, faults or crashes. */
module Safety {
  import opened Domain
  import opened TransactionTable
  import opened Protocol

  // ----- rows -----

  ghost predicate RowsOk(rows: Rows) {
    forall t :: t in rows ==> t != NIL_ID && rows[t].id == t && RowOk(rows[t])
  }

  ghost predicate KeysUnique(rows: Rows) {
    forall t, u :: t in rows && u in rows && rows[t].key == rows[u].key ==> t == u
  }

  /** From one table to a later one rows only appear and evolve. */
  ghost predicate RowsEvolve(rows: Rows, rows': Rows) {
    forall t :: t in rows ==> t in rows' && Evolves(rows[t], rows'[t])
  }

  // ----- requests -----

  /** The row a request works on is the stored one as far as no other request may have changed it. */
  ghost predicate Held(rows: Rows, input: Input, tx: Transaction) {
    && tx.id in rows && SameIdentity(tx, rows[tx.id]) && RowOk(tx)
    && tx.merchant == input.merchant && tx.status == GuardOf(input) && Rank(tx.status) <= Rank(rows[tx.id].status)
    && match input
       case PayIn(_, _, _, _, _) => rows[tx.id] == tx == NewRow(tx.id, input)
       case CaptureIn(_, txId) => tx.id == txId && tx.kind == AuthorizeCapture
       case VoidIn(_, txId) => tx.id == txId && tx.kind == AuthorizeCapture
       case RefundIn(_, txId, _) => tx.id == txId && rows[tx.id].status in {Captured, Refunded}
  }

  /** The patch a request is about to write was made for the gateway's answer. */
  ghost predicate PatchOk(input: Input, tx: Transaction, patch: Patch, call: Call) {
    && call.kind == KindOf(input) && call.txId == tx.id && call.amount == tx.amount
    && (exists response, at :: patch == PatchFor(input, response, at) && (response.Accept? <==> call.accepted))
    && (input.RefundIn? ==> call.accepted)
  }

  ghost predicate RefundFor(input: Input, tx: Transaction, row: RefundRow) {
    input.RefundIn? && row.txId == tx.id && row.merchant == tx.merchant && row.amount == tx.amount
  }

  ghost predicate PcOk(rows: Rows, input: Input, pc: Pc) {
    match pc
    case Lookup => input.PayIn? || input.RefundIn?
    case Tokenize => input.PayIn?
    case Insert => input.PayIn?
    case Locking => !input.PayIn?
    case Reading => !input.PayIn?
    case Calling(tx) => Held(rows, input, tx)
    case Writing(tx, patch, call, refund) =>
      Held(rows, input, tx) && PatchOk(input, tx, patch, call)
      && (refund.Some? <==> input.RefundIn?) && (refund.Some? ==> RefundFor(input, tx, refund.value))
    case Recording(tx, row) => Held(rows, input, tx) && RefundFor(input, tx, row) && rows[tx.id].status == Refunded
    case Releasing(_) => !input.PayIn?
    case Done(_) => true
  }

  ghost predicate ThreadsOk(rows: Rows, threads: map<Rid, Thread>) {
    forall r :: r in threads ==> PcOk(rows, threads[r].input, threads[r].pc)
  }

  /** The row a request that inserted it is still settling. */
  function Owned(th: Thread): Option<Id> {
    if th.input.PayIn? && (th.pc.Calling? || th.pc.Writing?) then Some(th.pc.tx.id) else None
  }

  ghost predicate OwnersUnique(threads: map<Rid, Thread>) {
    forall r, q | r in threads && q in threads && Owned(threads[r]).Some? ::
      Owned(threads[r]) == Owned(threads[q]) ==> r == q
  }

  ghost predicate Base(s: State) {
    && RowsOk(s.store.rows) && KeysUnique(s.store.rows) && s.store.rows.Keys <= s.store.used && NIL_ID in s.store.used
    && ThreadsOk(s.store.rows, s.threads) && OwnersUnique(s.threads)
  }

  lemma PatchedRow(input: Input, tx: Transaction, patch: Patch, call: Call, row: Transaction)
    requires PatchOk(input, tx, patch, call) && RowOk(row) && row.status == GuardOf(input)
    requires input.PayIn? ==> row.kind == input.kind
    requires input.CaptureIn? || input.VoidIn? ==> row.kind == AuthorizeCapture
    ensures Evolves(row, Patched(row, patch)) && RowOk(Patched(row, patch))
    ensures Patched(row, patch).status == patch.status != row.status
  {
  }

  /** A request keeps what it holds while others change the table, unless they change the very row it owns. */
  lemma PcStable(rows: Rows, rows': Rows, th: Thread)
    requires PcOk(rows, th.input, th.pc) && RowsEvolve(rows, rows')
    requires Owned(th).Some? ==> Owned(th).value in rows' && rows'[Owned(th).value] == rows[Owned(th).value]
    ensures PcOk(rows', th.input, th.pc)
  {
  }

  // ----- one step of one request -----

  ghost predicate TableOk(g: Store) {
    RowsOk(g.rows) && KeysUnique(g.rows) && g.rows.Keys <= g.used && NIL_ID in g.used
  }

  /** Only an insert or a status write touches the table. */
  lemma RowsFixed(g: Store, th: Thread, e: Event)
    requires Ready(g, th, e) && !e.InsertE? && !e.WriteE?
    ensures Act(g, th, e).store.rows == g.rows
  {
  }

  lemma InputKept(g: Store, th: Thread, e: Event)
    requires Ready(g, th, e)
    ensures Act(g, th, e).th.input == th.input && Act(g, th, e).store.config == g.config && Act(g, th, e).store.now == g.now
  {
  }

  lemma UsedGrows(g: Store, th: Thread, e: Event)
    requires Ready(g, th, e)
    ensures g.used <= Act(g, th, e).store.used
  {
  }

  lemma ReplaceRow(rows: Rows, t: Id, row: Transaction)
    requires RowsOk(rows) && KeysUnique(rows) && t in rows && Evolves(rows[t], row) && RowOk(row)
    ensures RowsOk(rows[t := row]) && KeysUnique(rows[t := row]) && RowsEvolve(rows, rows[t := row])
  {
  }

  lemma WriteRows(g: Store, th: Thread, e: Event)
    requires Ready(g, th, e) && e.WriteE?
    ensures Act(g, th, e).store.used == g.used
    ensures Act(g, th, e).store.rows ==
            if e.fault == NotApplied then g.rows else Updated(g.rows, th.pc.tx.id, GuardOf(th.input), th.pc.patch)
    ensures var pc := Act(g, th, e).th.pc;
            || pc.Done? || (pc.Releasing? && !th.input.PayIn?)
            || (e.fault == NoFault && th.pc.refund.Some? && pc == Recording(th.pc.tx, th.pc.refund.value))
  {
  }

  /** A status write patches its own row, and only while that has the status it guards on. */
  lemma WriteTable(g: Store, th: Thread, e: Event)
    requires TableOk(g) && PcOk(g.rows, th.input, th.pc) && Ready(g, th, e) && e.WriteE?
    ensures TableOk(Act(g, th, e).store) && RowsEvolve(g.rows, Act(g, th, e).store.rows)
    ensures forall t :: t in g.rows && Act(g, th, e).store.rows[t] != g.rows[t] ==>
              th.pc.tx.id == t && g.rows[t].status == GuardOf(th.input)
  {
    hide Act;
    WriteRows(g, th, e);
    var Writing(tx, patch, call, _) := th.pc;
    if Matches(g.rows, tx.id, GuardOf(th.input)) {
      PatchedRow(th.input, tx, patch, call, g.rows[tx.id]);
      ReplaceRow(g.rows, tx.id, Patched(g.rows[tx.id], patch));
    }
    hide PcOk, RowOk;
  }

  /** How a step changes the table: a fresh row under an unused key, or one patch to a matching row, or nothing. */
  lemma TableStep(g: Store, th: Thread, e: Event)
    requires TableOk(g) && PcOk(g.rows, th.input, th.pc) && Ready(g, th, e)
    ensures TableOk(Act(g, th, e).store) && RowsEvolve(g.rows, Act(g, th, e).store.rows)
    ensures forall t :: t in g.rows && Act(g, th, e).store.rows[t] != g.rows[t] ==>
              e.WriteE? && th.pc.tx.id == t && g.rows[t].status == GuardOf(th.input)
  {
    if e.WriteE? {
      WriteTable(g, th, e);
    } else if !e.InsertE? {
      RowsFixed(g, th, e);
      UsedGrows(g, th, e);
    }
  }

  lemma ReadHolds(rows: Rows, input: Input)
    requires RowsOk(rows) && !input.PayIn?
    ensures Decide(rows, input).Proceed? ==> Held(rows, input, Decide(rows, input).tx)
  {
  }

  lemma InsertActor(g: Store, th: Thread, e: Event)
    requires TableOk(g) && Ready(g, th, e) && e.InsertE?
    ensures PcOk(Act(g, th, e).store.rows, th.input, Act(g, th, e).th.pc)
    ensures Act(g, th, e).th.pc.Calling? ==> Act(g, th, e).th.pc.tx.id !in g.rows
  {
  }

  lemma CallActor(g: Store, th: Thread, e: Event)
    requires Ready(g, th, e) && e.CallE? && PcOk(g.rows, th.input, th.pc)
    ensures PcOk(g.rows, th.input, Act(g, th, e).th.pc)
  {
  }

  lemma WriteActor(g: Store, th: Thread, e: Event)
    requires TableOk(g) && PcOk(g.rows, th.input, th.pc) && Ready(g, th, e) && e.WriteE?
    ensures PcOk(Act(g, th, e).store.rows, th.input, Act(g, th, e).th.pc)
  {
    hide Act, RowsOk, KeysUnique;
    WriteRows(g, th, e);
    if Act(g, th, e).th.pc.Recording? {
      WriteTable(g, th, e);
      assert th.pc.patch.status == Refunded;
    }
  }

  lemma OtherActor(g: Store, th: Thread, e: Event)
    requires Ready(g, th, e) && !e.InsertE? && !e.CallE? && !e.WriteE? && !e.ReadE? && PcOk(g.rows, th.input, th.pc)
    ensures PcOk(Act(g, th, e).store.rows, th.input, Act(g, th, e).th.pc)
  {
  }

  lemma OwnedStep(g: Store, th: Thread, e: Event)
    requires Ready(g, th, e) && (e.ReadE? ==> !th.input.PayIn?)
    ensures Act(g, th, e).th.input == th.input
    ensures Owned(Act(g, th, e).th).Some? ==> Owned(Act(g, th, e).th) == Owned(th) || e.InsertE?
  {
  }

  /** The request that moved satisfies its invariant again, and owns a row only if it did or just inserted it. */
  lemma ActorStep(g: Store, th: Thread, e: Event)
    requires TableOk(g) && PcOk(g.rows, th.input, th.pc) && Ready(g, th, e)
    ensures var after := Act(g, th, e);
            && after.th.input == th.input
            && PcOk(after.store.rows, th.input, after.th.pc)
            && (Owned(after.th).Some? ==> Owned(after.th) == Owned(th) || Owned(after.th).value !in g.rows)
  {
    OwnedStep(g, th, e);
    if e.WriteE? {
      WriteActor(g, th, e);
    } else if e.ReadE? {
      ReadHolds(g.rows, th.input);
    } else if e.CallE? {
      CallActor(g, th, e);
    } else if e.InsertE? {
      InsertActor(g, th, e);
    } else {
      hide Act;
      OtherActor(g, th, e);
    }
  }

  // ----- one step of the system -----

  /** Nobody else changes the row a request owns. */
  lemma OwnerFixed(s: State, e: Event, q: Rid)
    requires Base(s) && Moves(s, e) && q in s.threads && q != e.r && Owned(s.threads[q]).Some?
    ensures var t := Owned(s.threads[q]).value;
            var rows := Act(s.store, s.threads[e.r], e).store.rows;
            t in s.store.rows && t in rows && rows[t] == s.store.rows[t]
  {
    hide Act;
    TableStep(s.store, s.threads[e.r], e);
    assert PcOk(s.store.rows, s.threads[q].input, s.threads[q].pc);
    assert PcOk(s.store.rows, s.threads[e.r].input, s.threads[e.r].pc);
  }

  lemma BaseStep(s: State, e: Event)
    requires Base(s)
    ensures Base(Step(s, e)) && RowsEvolve(s.store.rows, Step(s, e).store.rows)
  {
    hide Act, PcOk, RowsOk, KeysUnique;
    if Moves(s, e) {
      var th := s.threads[e.r];
      var after := Act(s.store, th, e);
      TableStep(s.store, th, e);
      ActorStep(s.store, th, e);
      forall q | q in s.threads && q != e.r
        ensures PcOk(after.store.rows, s.threads[q].input, s.threads[q].pc)
        ensures Owned(s.threads[q]).Some? ==> Owned(s.threads[q]).value in s.store.rows
      {
        if Owned(s.threads[q]).Some? {
          OwnerFixed(s, e, q);
        }
        PcStable(s.store.rows, after.store.rows, s.threads[q]);
      }
    } else {
      StillStep(s, e);
    }
  }

  /** Time passing and requests arriving move nobody. */
  lemma StillStep(s: State, e: Event)
    requires Base(s) && !Moves(s, e)
    ensures Base(Step(s, e)) && Step(s, e).store.rows == s.store.rows
  {
    hide Act;
  }

  /** Every reachable state satisfies the basic invariant. */
  lemma {:induction false} BaseAlways(config: Config, es: seq<Event>)
    ensures Base(Run(config, es))
  {
    if es != [] {
      BaseAlways(config, es[..|es| - 1]);
      BaseStep(Run(config, es[..|es| - 1]), es[|es| - 1]);
    }
  }

  /** The last step of a run keeps every row it found, evolved. */
  lemma LastStep(config: Config, es: seq<Event>)
    requires es != []
    ensures Base(Run(config, es[..|es| - 1])) && Base(Run(config, es))
    ensures RowsEvolve(Run(config, es[..|es| - 1]).store.rows, Run(config, es).store.rows)
  {
    BaseAlways(config, es[..|es| - 1]);
    BaseStep(Run(config, es[..|es| - 1]), es[|es| - 1]);
  }
}
