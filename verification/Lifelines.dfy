/**
 The calls the gateway accepted on one transaction: how many, and in which order. All that is asked of leases here is
 that critical sections on this transaction respect theirs.
 */
module Lifelines {
  import opened Domain
  import opened TransactionTable
  import opened Protocol
  import opened Safety
  import opened Ledger
  import opened Sums
  import opened Leases
  import Keys

  /** The accepted call a request has made and not yet written down. */
  function Flying(th: Thread): seq<Call> {
    Accepted(InFlight(th))
  }

  ghost predicate FliesOn(s: State, r: Rid, t: Id) {
    r in s.threads && Hand(s.threads[r]) == Some(t) && Flying(s.threads[r]) != []
  }

  /** Unless a write was lost, the accepted calls are those the row testifies to, then the one in flight if any. */
  ghost predicate InOrder(s: State, t: Id) {
    t in s.store.rows && Lossless(s.store.failed, t) ==>
      var calls, told := Accepted(CallsOf(s.store.log, t)), Entries(s.store.rows[t]);
      && (forall r :: FliesOn(s, r, t) ==> calls == told + Flying(s.threads[r]))
      && ((forall r :: !FliesOn(s, r, t)) ==> calls == told)
  }

  lemma AcceptedOne(c: Call)
    ensures Accepted([c]) == if c.accepted then [c] else []
  {
    AcceptedAppend([], c);
    assert [] + [c] == [c];
  }

  /** The request with the transaction in hand moves: a call goes up in the air, and its write brings it down. */
  lemma HolderBooks(g: Store, th: Thread, e: Event, t: Id)
    requires Ready(g, th, e) && PcOk(g.rows, th.input, th.pc) && RowGuarded(g.rows, th) && Hand(th) == Some(t)
    requires t in g.rows && RowOk(g.rows[t]) && Lossless(Act(g, th, e).store.failed, t)
    requires Accepted(CallsOf(g.log, t)) == Entries(g.rows[t]) + Flying(th)
    ensures var after := Act(g, th, e);
            && t in after.store.rows
            && Accepted(CallsOf(after.store.log, t)) == Entries(after.store.rows[t]) + Flying(after.th)
  {
    hide Act, Accepted, CallsOf, Lossless, RowOk, Entries;
    var after := Act(g, th, e);
    if e.WriteE? {
      HolderWrites(g, th, e, t);
    } else {
      AcceptedNone();
      BooksShape(g, th, e);
      RowsFixed(g, th, e);
      Keys.LogKept(g, th, e);
      if after.store.log != g.log {
        var call := Call(KindOf(th.input), t, th.pc.tx.amount, e.response.Accept?);
        CallsOfAppend(g.log, call, t);
        AcceptedAppend(CallsOf(g.log, t), call);
        AcceptedOne(call);
        assert after.store.log == g.log + [call];
        CallFlies(g, th, e);
      } else if after.store.failed != g.failed {
        LosslessAppend(g.failed, th.pc.call, t);
        AcceptedOne(th.pc.call);
      }
    }
  }

  lemma CallFlies(g: Store, th: Thread, e: Event)
    requires Ready(g, th, e) && e.CallE? && Act(g, th, e).store.log != g.log
    ensures var call := Call(KindOf(th.input), th.pc.tx.id, th.pc.tx.amount, e.response.Accept?);
            FlightOf(Act(g, th, e).th, call) && InFlight(th) == []
  {
  }

  lemma HolderWrites(g: Store, th: Thread, e: Event, t: Id)
    requires Ready(g, th, e) && e.WriteE? && PcOk(g.rows, th.input, th.pc) && RowGuarded(g.rows, th) && Hand(th) == Some(t)
    requires t in g.rows && RowOk(g.rows[t]) && Lossless(Act(g, th, e).store.failed, t)
    requires Accepted(CallsOf(g.log, t)) == Entries(g.rows[t]) + Flying(th)
    ensures var after := Act(g, th, e);
            && t in after.store.rows
            && Accepted(CallsOf(after.store.log, t)) == Entries(after.store.rows[t]) + Flying(after.th)
  {
    hide Act, Accepted, CallsOf, Lossless, RowOk, Entries;
    WriteFate(g, th, e);
    AcceptedOne(th.pc.call);
    assert Accepted([]) == [] by { AcceptedNone(); }
    if e.fault == NotApplied {
      LosslessAppend(g.failed, th.pc.call, t);
    } else {
      PatchedEntries(th.input, th.pc.tx, th.pc.patch, th.pc.call, g.rows[t]);
    }
  }

  lemma AcceptedNone()
    ensures Accepted([]) == []
  {
  }

  lemma FailedShape(g: Store, th: Thread, e: Event, t: Id)
    requires Ready(g, th, e) && Lossless(Act(g, th, e).store.failed, t)
    ensures Lossless(g.failed, t)
  {
    if Act(g, th, e).store.failed != g.failed {
      LosslessAppend(g.failed, th.pc.call, t);
    }
  }

  /** Whoever flies had the transaction in hand before. */
  lemma FlyerShape(g: Store, th: Thread, e: Event)
    requires Ready(g, th, e)
    ensures Flying(th) != [] ==> Hand(th).Some?
    ensures Flying(Act(g, th, e).th) != [] ==> Hand(Act(g, th, e).th) == Hand(th)
  {
    AcceptedNone();
  }

  lemma FlyersApart(s: State, e: Event, t: Id, q: Rid)
    requires Moves(s, e) && q != e.r
    ensures FliesOn(Step(s, e), q, t) <==> FliesOn(s, q, t)
  {
    hide Act, Accepted;
  }

  lemma InOrderStep(s: State, e: Event, t: Id)
    requires Sound(s, t) && LeasedOn(s, t) && Keys.CallsOk(s) && InOrder(s, t) && Moves(s, e)
    ensures InOrder(Step(s, e), t)
  {
    hide Act, Accepted, CallsOf, Lossless, Entries, Flying, LeasedOn, RowGuarded, CallGuarded, PcOk, RowOk;
    var g, th, s' := s.store, s.threads[e.r], Step(s, e);
    var after := Act(g, th, e);
    if t in s'.store.rows && Lossless(s'.store.failed, t) {
      FailedShape(g, th, e, t);
      FlyerShape(g, th, e);
      assert PcOk(g.rows, th.input, th.pc);
      forall q | q != e.r ensures FliesOn(s', q, t) <==> FliesOn(s, q, t) {
        FlyersApart(s, e, t, q);
      }
      if t !in g.rows {
        NewInOrder(s, e, t);
      } else if Hand(th) == Some(t) {
        forall q | q != e.r ensures !FliesOn(s, q, t) {
          if FliesOn(s, q, t) {
            HandsUnique(s, q, e.r, t);
          }
        }
        assert FliesOn(s, e.r, t) <==> Flying(th) != [];
        assert Entries(g.rows[t]) + [] == Entries(g.rows[t]);
        HolderBooks(g, th, e, t);
        assert FliesOn(s', e.r, t) <==> Flying(after.th) != [];
        assert Entries(after.store.rows[t]) + [] == Entries(after.store.rows[t]);
      } else {
        HandStep(g, th, e, t);
        assert !FliesOn(s, e.r, t) && !FliesOn(s', e.r, t);
      }
    }
  }

  /** A row that just appeared has seen no calls. */
  lemma NewInOrder(s: State, e: Event, t: Id)
    requires Base(s) && Keys.CallsOk(s) && Moves(s, e) && t !in s.store.rows && t in Step(s, e).store.rows
    ensures Accepted(CallsOf(Step(s, e).store.log, t)) == Entries(Step(s, e).store.rows[t])
    ensures forall r :: !FliesOn(Step(s, e), r, t)
  {
    NewPending(s.store, s.threads[e.r], e, t);
    hide Act, PcOk;
    NoCallsIn(s.store.log, t);
    forall r ensures !FliesOn(Step(s, e), r, t) {
      if FliesOn(Step(s, e), r, t) {
        if r == e.r {
          FlyerShape(s.store, s.threads[e.r], e);
        } else {
          FlyersApart(s, e, t, r);
        }
        HandFacts(s.store.rows, s.threads[r]);
      }
    }
  }

  lemma NewPending(g: Store, th: Thread, e: Event, t: Id)
    requires Ready(g, th, e) && t !in g.rows && t in Act(g, th, e).store.rows
    ensures Act(g, th, e).store.log == g.log && Act(g, th, e).store.rows[t].status == Pending
  {
    if !e.InsertE? && !e.WriteE? {
      RowsFixed(g, th, e);
    }
  }

  lemma InOrderStill(s: State, e: Event, t: Id)
    requires InOrder(s, t) && !Moves(s, e)
    ensures InOrder(Step(s, e), t)
  {
    hide Act, Accepted, CallsOf, Lossless, Entries;
    forall r ensures FliesOn(Step(s, e), r, t) <==> FliesOn(s, r, t) {
      AcceptedNone();
    }
  }

  lemma {:induction false} InOrderAlways(config: Config, es: seq<Event>, t: Id)
    requires LeasedRunOn(config, es, t)
    ensures InOrder(Run(config, es), t)
  {
    if es != [] {
      hide Step, Sound, LeasedOn, InOrder, Keys.CallsOk;
      var before, last := Run(config, es[..|es| - 1]), es[|es| - 1];
      InOrderAlways(config, es[..|es| - 1], t);
      SoundAlways(config, es[..|es| - 1], t);
      Keys.CallsAlways(config, es[..|es| - 1]);
      if Moves(before, last) {
        InOrderStep(before, last, t);
      } else {
        InOrderStill(before, last, t);
      }
    }
  }

  // ----- the lives of a transaction -----

  /** A call that fits the status of the row it is made on. */
  ghost predicate NextCall(row: Transaction, c: Call) {
    c.txId == row.id && c.amount == row.amount
    && match c.kind
       case AuthorizeCall => row.status == Pending && row.kind == AuthorizeCapture
       case CaptureCall => if row.kind == AuthorizeCapture then row.status == Authorized else row.status == Pending
       case VoidCall => row.status == Authorized && row.kind == AuthorizeCapture
       case RefundCall => row.status == Captured
  }

  function Kinds(calls: seq<Call>): seq<CallKind> {
    seq(|calls|, i requires 0 <= i < |calls| => calls[i].kind)
  }

  /** The three lives a transaction may have at the gateway. */
  predicate Lifeline(kind: PaymentType, kinds: seq<CallKind>) {
    if kind == DirectCharge then kinds <= [CaptureCall, RefundCall]
    else kinds <= [AuthorizeCall, CaptureCall, RefundCall] || kinds <= [AuthorizeCall, VoidCall]
  }

  lemma EntriesLifeline(row: Transaction, calls: seq<Call>)
    requires RowOk(row) && (calls == [] || (|calls| == 1 && NextCall(row, calls[0])))
    ensures Lifeline(row.kind, Kinds(Entries(row) + calls))
  {
  }

  lemma FlyerFits(rows: Rows, th: Thread)
    requires PcOk(rows, th.input, th.pc) && RowGuarded(rows, th) && th.pc.Writing?
    ensures th.pc.tx.id in rows && NextCall(rows[th.pc.tx.id], th.pc.call)
  {
  }

  /**
   With the leases of its critical sections respected and no status write lost, the accepted gateway calls on a
   transaction are a prefix of authorize-capture-refund, authorize-void or, for a direct charge, capture-refund.
   Never void and capture both.
   */
  lemma GatewayOrder(config: Config, es: seq<Event>, t: Id)
    requires LeasedRunOn(config, es, t) && t in Run(config, es).store.rows && Lossless(Run(config, es).store.failed, t)
    ensures Lifeline(Run(config, es).store.rows[t].kind, Kinds(Accepted(CallsOf(Run(config, es).store.log, t))))
  {
    hide Step, LeasedOn, RowGuarded, CallGuarded, PcOk, RowOk, Entries, Accepted, CallsOf, Lossless, NextCall, Lifeline,
      Kinds;
    var s := Run(config, es);
    var row := s.store.rows[t];
    InOrderAlways(config, es, t);
    SoundAlways(config, es, t);
    if r :| FliesOn(s, r, t) {
      var th := s.threads[r];
      AcceptedNone();
      AcceptedOne(th.pc.call);
      assert PcOk(s.store.rows, th.input, th.pc);
      FlyerFits(s.store.rows, th);
      EntriesLifeline(row, [th.pc.call]);
    } else {
      EntriesLifeline(row, []);
      assert Entries(row) + [] == Entries(row);
    }
  }

  // ----- how many -----

  ghost function Weight(kind: CallKind, t: Id): Call -> int {
    (c: Call) => if c.kind == kind && c.txId == t then 1 else 0
  }

  lemma {:induction false} CountIsTotal(calls: seq<Call>, kind: CallKind, t: Id)
    ensures Total(calls, Weight(kind, t)) == Count(calls, kind, t)
  {
    if calls != [] {
      CountIsTotal(calls[..|calls| - 1], kind, t);
    }
  }

  /** How often a row testifies to each kind of call. */
  lemma EntriesCount(row: Transaction, kind: CallKind)
    requires RowOk(row)
    ensures Count(Entries(row), kind, row.id) ==
            match kind
            case AuthorizeCall => if row.kind == AuthorizeCapture && row.gatewayRef.Some? then 1 else 0
            case CaptureCall => if row.status in {Captured, Refunded} then 1 else 0
            case VoidCall => if row.status == Voided then 1 else 0
            case RefundCall => if row.status == Refunded then 1 else 0
  {
    var a := Call(AuthorizeCall, row.id, row.amount, true);
    var c := Call(CaptureCall, row.id, row.amount, true);
    var v := Call(VoidCall, row.id, row.amount, true);
    assert Count([], kind, row.id) == 0;
    hide Count, RowOk;
    CountAppend([], a, kind, row.id);
    CountAppend([], c, kind, row.id);
    CountAppend([a], c, kind, row.id);
    CountAppend([a], v, kind, row.id);
    CountAppend([c], Call(RefundCall, row.id, row.amount, true), kind, row.id);
    CountAppend([a, c], Call(RefundCall, row.id, row.amount, true), kind, row.id);
    assert [] + [a] == [a] && [] + [c] == [c] && [a] + [c] == [a, c] && [a] + [v] == [a, v];
    EntriesSpelled(row);
  }

  /** What a row testifies to, spelled out. */
  lemma EntriesSpelled(row: Transaction)
    requires RowOk(row)
    ensures var a, c := Call(AuthorizeCall, row.id, row.amount, true), Call(CaptureCall, row.id, row.amount, true);
            var opening := if row.kind == AuthorizeCapture then [a, c] else [c];
            Entries(row) ==
            match row.status
            case Pending => []
            case Authorized => [a]
            case Captured => opening
            case Failed => if row.kind == AuthorizeCapture && row.gatewayRef.Some? then [a] else []
            case Voided => [a, Call(VoidCall, row.id, row.amount, true)]
            case Refunded => opening + [Call(RefundCall, row.id, row.amount, true)]
  {
  }

  /** A row testifies to calls on itself alone. */
  lemma EntriesOwn(row: Transaction, kind: CallKind, t: Id)
    requires row.id != t
    ensures Count(Entries(row), kind, t) == 0
  {
    CountNone(Entries(row), kind, t);
  }

  /**
   In every run, leases or not, the accepted calls of a kind on a transaction are exactly those its row testifies to,
   those in flight, those whose status write failed and those whose status write missed.
   */
  lemma CallsCounted(config: Config, es: seq<Event>, t: Id, kind: CallKind)
    requires t in Run(config, es).store.rows
    ensures var s := Run(config, es);
            Count(s.store.log, kind, t)
            == Count(Entries(s.store.rows[t]), kind, t) + Sum(s.threads, FlightTotal(Weight(kind, t)))
               + Count(s.store.failed, kind, t) + Count(s.store.missed, kind, t)
  {
    hide Step, Entries, Count, Total, RowOk, PcOk;
    var s, w := Run(config, es), Weight(kind, t);
    BaseAlways(config, es);
    Conservation(config, es, w);
    CountIsTotal(s.store.log, kind, t);
    CountIsTotal(s.store.failed, kind, t);
    CountIsTotal(s.store.missed, kind, t);
    CountIsTotal(Entries(s.store.rows[t]), kind, t);
    forall u | u in s.store.rows && u != t ensures RowTotal(w)(s.store.rows[u]) == 0 {
      EntriesOwn(s.store.rows[u], kind, t);
      CountIsTotal(Entries(s.store.rows[u]), kind, t);
    }
    SumOne(s.store.rows, RowTotal(w), t);
  }

  /** What is in flight on the transaction is at most one call, and not one the row already testifies to. */
  lemma FlightCounted(s: State, t: Id, kind: CallKind)
    requires Sound(s, t) && LeasedOn(s, t) && t in s.store.rows
    ensures Count(Entries(s.store.rows[t]), kind, t) + Sum(s.threads, FlightTotal(Weight(kind, t))) <= 1
  {
    hide LeasedOn, RowGuarded, CallGuarded, PcOk, RowOk, Entries, Count, Total, NextCall;
    var w, row := Weight(kind, t), s.store.rows[t];
    EntriesCount(row, kind);
    forall r | r in s.threads && Hand(s.threads[r]) != Some(t) ensures FlightTotal(w)(s.threads[r]) == 0 {
      assert PcOk(s.store.rows, s.threads[r].input, s.threads[r].pc);
      OtherFlight(s.store.rows, s.threads[r], kind, t);
    }
    if r :| r in s.threads && Hand(s.threads[r]) == Some(t) {
      var th := s.threads[r];
      forall q | q in s.threads && q != r ensures Hand(s.threads[q]) != Some(t) {
        if Hand(s.threads[q]) == Some(t) {
          HandsUnique(s, q, r, t);
        }
      }
      SumOne(s.threads, FlightTotal(w), r);
      assert PcOk(s.store.rows, th.input, th.pc);
      HolderFlight(s.store.rows, th, kind, t);
    } else {
      SumNone(s.threads, FlightTotal(w));
    }
  }

  lemma OtherFlight(rows: Rows, th: Thread, kind: CallKind, t: Id)
    requires PcOk(rows, th.input, th.pc) && Hand(th) != Some(t)
    ensures FlightTotal(Weight(kind, t))(th) == 0
  {
    if th.pc.Writing? {
      TotalAppend([], th.pc.call, Weight(kind, t));
      assert [] + [th.pc.call] == InFlight(th);
    }
  }

  lemma HolderFlight(rows: Rows, th: Thread, kind: CallKind, t: Id)
    requires PcOk(rows, th.input, th.pc) && RowGuarded(rows, th) && Hand(th) == Some(t) && RowOk(rows[t])
    ensures t in rows && Count(Entries(rows[t]), kind, t) + FlightTotal(Weight(kind, t))(th) <= 1
  {
    EntriesCount(rows[t], kind);
    if th.pc.Writing? {
      TotalAppend([], th.pc.call, Weight(kind, t));
      assert [] + [th.pc.call] == InFlight(th);
      FlyerFits(rows, th);
    }
    hide Count, Entries, Total;
  }

  /**
   With the leases of its critical sections respected, accepted calls of each kind on a transaction number at most one,
   plus one for each accepted call of that kind whose status write failed.
   */
  lemma BoundedDuplicates(config: Config, es: seq<Event>, t: Id, kind: CallKind)
    requires LeasedRunOn(config, es, t) && t in Run(config, es).store.rows
    ensures var g := Run(config, es).store; Count(g.log, kind, t) <= 1 + Count(g.failed, kind, t)
  {
    hide Step, Entries, Count, LeasedOn;
    SoundAlways(config, es, t);
    CallsCounted(config, es, t, kind);
    FlightCounted(Run(config, es), t, kind);
    CountNone(Run(config, es).store.missed, kind, t);
  }
}
