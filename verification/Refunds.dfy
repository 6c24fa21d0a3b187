/** Refund rows against refunded transactions: how many rows one can have, and when it has none. */
module Refunds {
  import opened Domain
  import opened TransactionTable
  import opened Protocol
  import opened Safety
  import opened Ledger
  import opened Sums
  import opened Leases
  import Lifecycle

  function RowsFor(refunds: seq<RefundRow>, t: Id): nat {
    if refunds == [] then 0
    else RowsFor(refunds[..|refunds| - 1], t) + if refunds[|refunds| - 1].txId == t then 1 else 0
  }

  lemma RowsForAppend(refunds: seq<RefundRow>, row: RefundRow, t: Id)
    ensures RowsFor(refunds + [row], t) == RowsFor(refunds, t) + if row.txId == t then 1 else 0
  {
    assert (refunds + [row])[..|refunds|] == refunds;
  }

  /** One for a request that has written the refund status and not yet inserted its refund row. */
  function RecordsOn(t: Id): Thread -> int {
    (th: Thread) => if th.pc.Recording? && th.pc.tx.id == t then 1 else 0
  }

  function OneIfRefunded(rows: Rows, t: Id): nat {
    if t in rows && rows[t].status == Refunded then 1 else 0
  }

  // ----- at most one, plus the missed writes -----

  ghost predicate Bounded(s: State, t: Id) {
    RowsFor(s.store.refunds, t) + Sum(s.threads, RecordsOn(t))
    <= OneIfRefunded(s.store.rows, t) + Count(s.store.missed, RefundCall, t)
  }

  /** What a step adds to the one side it adds to the other. */
  ghost predicate KeepsBound(g: Store, th: Thread, e: Event, t: Id)
    requires Ready(g, th, e)
  {
    var after := Act(g, th, e);
    RowsFor(after.store.refunds, t) + RecordsOn(t)(after.th)
    + OneIfRefunded(g.rows, t) + Count(g.missed, RefundCall, t)
    <= RowsFor(g.refunds, t) + RecordsOn(t)(th)
       + OneIfRefunded(after.store.rows, t) + Count(after.store.missed, RefundCall, t)
  }

  lemma RecordBound(g: Store, th: Thread, e: Event, t: Id)
    requires Ready(g, th, e) && e.RecordE? && PcOk(g.rows, th.input, th.pc)
    ensures KeepsBound(g, th, e, t)
  {
    RowsForAppend(g.refunds, th.pc.row, t);
    hide RowsFor, Count;
  }

  /** A status write that matches makes its row refunded once and for all; one that misses is counted. */
  lemma WriteBound(g: Store, th: Thread, e: Event, t: Id)
    requires Ready(g, th, e) && e.WriteE? && PcOk(g.rows, th.input, th.pc)
    ensures KeepsBound(g, th, e, t)
  {
    hide RowsFor, Count;
    CountAppend(g.missed, th.pc.call, RefundCall, t);
    if th.pc.refund.None? {
      assert th.pc.patch.status != Refunded;
    }
  }

  lemma OtherBound(g: Store, th: Thread, e: Event, t: Id)
    requires Ready(g, th, e) && TableOk(g) && !e.WriteE? && !e.RecordE?
    ensures KeepsBound(g, th, e, t)
  {
    hide RowsFor, Count;
    if !e.InsertE? {
      RowsFixed(g, th, e);
    }
  }

  lemma BoundedStep(s: State, e: Event, t: Id)
    requires Base(s) && Bounded(s, t)
    ensures Bounded(Step(s, e), t)
  {
    hide Act, PcOk, RowsFor, Count, RowsOk, KeysUnique;
    if Moves(s, e) {
      var g, th := s.store, s.threads[e.r];
      SumUpdate(s.threads, RecordsOn(t), e.r, Act(g, th, e).th);
      assert PcOk(g.rows, th.input, th.pc);
      if e.WriteE? {
        WriteBound(g, th, e, t);
      } else if e.RecordE? {
        RecordBound(g, th, e, t);
      } else {
        OtherBound(g, th, e, t);
      }
    } else if e.BeginE? && e.r !in s.threads {
      SumUpdate(s.threads, RecordsOn(t), e.r, Thread(e.input, Entry(e.input), None, None));
    }
  }

  lemma {:induction false} BoundedAlways(config: Config, es: seq<Event>, t: Id)
    ensures Bounded(Run(config, es), t)
  {
    if es != [] {
      hide Step;
      BoundedAlways(config, es[..|es| - 1], t);
      BaseAlways(config, es[..|es| - 1]);
      BoundedStep(Run(config, es[..|es| - 1]), es[|es| - 1], t);
    }
  }

  /**
   In every run, whatever leases, keys and races do, a transaction has at most one refund row more than refund status
   writes of it that missed, and none at all unless it is refunded.
   */
  lemma RefundRowsCounted(config: Config, es: seq<Event>, t: Id)
    ensures var g := Run(config, es).store;
            && RowsFor(g.refunds, t) <= OneIfRefunded(g.rows, t) + Count(g.missed, RefundCall, t)
            && (OneIfRefunded(g.rows, t) == 0 ==> RowsFor(g.refunds, t) == 0)
  {
    hide Step;
    BoundedAlways(config, es, t);
    NobodyNegative(Run(config, es).threads, t);
    Lifecycle.RefundRowsImplyRefunded(config, es);
    if OneIfRefunded(Run(config, es).store.rows, t) == 0 {
      NoRows(Run(config, es).store.refunds, t);
    }
  }

  lemma {:induction false} NoRows(refunds: seq<RefundRow>, t: Id)
    requires forall i :: 0 <= i < |refunds| ==> refunds[i].txId != t
    ensures RowsFor(refunds, t) == 0
  {
    if refunds != [] {
      NoRows(refunds[..|refunds| - 1], t);
    }
  }

  lemma {:induction false} NobodyNegative(threads: map<Rid, Thread>, t: Id)
    ensures Sum(threads, RecordsOn(t)) >= 0
    decreases |threads|
  {
    if threads != map[] {
      NobodyNegative(threads - {Pick(threads)}, t);
    }
  }

  lemma {:induction false} TwoRows(refunds: seq<RefundRow>, i: nat, j: nat)
    requires i < j < |refunds| && refunds[i].txId == refunds[j].txId
    ensures RowsFor(refunds, refunds[i].txId) >= 2
  {
    var last := |refunds| - 1;
    if j < last {
      TwoRows(refunds[..last], i, j);
    } else {
      OneRow(refunds[..last], i);
    }
  }

  lemma {:induction false} OneRow(refunds: seq<RefundRow>, i: nat)
    requires i < |refunds|
    ensures RowsFor(refunds, refunds[i].txId) >= 1
  {
    var last := |refunds| - 1;
    if i < last {
      OneRow(refunds[..last], i);
    }
  }

  /** A second refund row means that the status write of a refund of that transaction missed. */
  lemma SecondRefundMissed(config: Config, es: seq<Event>, i: nat, j: nat)
    requires i < j < |Run(config, es).store.refunds|
    requires Run(config, es).store.refunds[i].txId == Run(config, es).store.refunds[j].txId
    ensures Count(Run(config, es).store.missed, RefundCall, Run(config, es).store.refunds[i].txId) >= 1
  {
    hide Step;
    TwoRows(Run(config, es).store.refunds, i, j);
    RefundRowsCounted(config, es, Run(config, es).store.refunds[i].txId);
  }

  /** A transaction has at most one refund row, however many refunds race and whatever keys they carry. */
  lemma OneRefundPerTransaction(config: Config, es: seq<Event>, i: nat, j: nat)
    requires i < j < |Run(config, es).store.refunds| && LeasedRunOn(config, es, Run(config, es).store.refunds[i].txId)
    ensures Run(config, es).store.refunds[i].txId != Run(config, es).store.refunds[j].txId
  {
    hide Step;
    var t := Run(config, es).store.refunds[i].txId;
    SoundAlways(config, es, t);
    CountNone(Run(config, es).store.missed, RefundCall, t);
    if t == Run(config, es).store.refunds[j].txId {
      SecondRefundMissed(config, es, i, j);
    }
  }

  // ----- none at all -----

  ghost predicate HasRefund(refunds: seq<RefundRow>, t: Id) {
    exists i :: 0 <= i < |refunds| && refunds[i].txId == t
  }

  /** A Refund of the transaction that has yet to insert its row, or was stopped by the database, or died. */
  predicate Interrupted(th: Thread, t: Id) {
    && th.input.RefundIn? && th.input.txId == t
    && (th.pc.Recording? || Answered(th) == Some(Err(Database)) || Answered(th) == Some(Crashed))
  }

  ghost predicate SomeInterrupted(s: State, t: Id) {
    exists r :: r in s.threads && Interrupted(s.threads[r], t)
  }

  ghost predicate Explained(s: State, t: Id) {
    t in s.store.rows && s.store.rows[t].status == Refunded ==>
      HasRefund(s.store.refunds, t) || SomeInterrupted(s, t)
  }

  /** A row becomes refunded by a Refund that goes on to insert its row or is stopped there. */
  lemma Refunder(g: Store, th: Thread, e: Event, t: Id)
    requires Ready(g, th, e) && PcOk(g.rows, th.input, th.pc)
    requires t in Act(g, th, e).store.rows && Act(g, th, e).store.rows[t].status == Refunded
    requires t in g.rows ==> g.rows[t].status != Refunded
    ensures Interrupted(Act(g, th, e).th, t)
  {
    if !e.InsertE? && !e.WriteE? {
      RowsFixed(g, th, e);
    }
  }

  /** A Refund that was interrupted remains so, or its row is in. */
  lemma StaysInterrupted(g: Store, th: Thread, e: Event, t: Id)
    requires Ready(g, th, e) && PcOk(g.rows, th.input, th.pc) && Interrupted(th, t)
    ensures Interrupted(Act(g, th, e).th, t) || HasRefund(Act(g, th, e).store.refunds, t)
  {
    if e.RecordE? {
      assert (g.refunds + [th.pc.row])[|g.refunds|] == th.pc.row;
    }
  }

  lemma RefundsKept(g: Store, th: Thread, e: Event, t: Id)
    requires Ready(g, th, e) && HasRefund(g.refunds, t)
    ensures HasRefund(Act(g, th, e).store.refunds, t)
  {
    var i :| 0 <= i < |g.refunds| && g.refunds[i].txId == t;
    assert Act(g, th, e).store.refunds[i] == g.refunds[i];
  }

  lemma ExplainedStep(s: State, e: Event, t: Id)
    requires Base(s) && Explained(s, t)
    ensures Explained(Step(s, e), t)
  {
    hide Act, PcOk, RowsOk, KeysUnique, HasRefund, Interrupted;
    var s' := Step(s, e);
    if Moves(s, e) && t in s'.store.rows && s'.store.rows[t].status == Refunded {
      var g, th := s.store, s.threads[e.r];
      assert PcOk(g.rows, th.input, th.pc);
      if t !in g.rows || g.rows[t].status != Refunded {
        Refunder(g, th, e, t);
        assert Interrupted(s'.threads[e.r], t);
      } else if HasRefund(g.refunds, t) {
        RefundsKept(g, th, e, t);
      } else {
        var r :| r in s.threads && Interrupted(s.threads[r], t);
        if r == e.r {
          StaysInterrupted(g, th, e, t);
        }
        assert HasRefund(s'.store.refunds, t) || Interrupted(s'.threads[r], t);
      }
    } else if !Moves(s, e) && t in s.store.rows && SomeInterrupted(s, t) {
      var r :| r in s.threads && Interrupted(s.threads[r], t);
      assert Interrupted(s'.threads[r], t);
    }
  }

  /**
   The status write and the refund insert are not one database transaction. In every run a transaction that has a refund
   row is refunded, and one that is refunded has a refund row or a Refund of it that is still to insert its own, was
   told of a database error, or died.
   */
  lemma {:induction false} RefundedExplained(config: Config, es: seq<Event>, t: Id)
    ensures Explained(Run(config, es), t)
    ensures HasRefund(Run(config, es).store.refunds, t) ==>
              t in Run(config, es).store.rows && Run(config, es).store.rows[t].status == Refunded
  {
    hide Step;
    Lifecycle.RefundRowsImplyRefunded(config, es);
    if es != [] {
      RefundedExplained(config, es[..|es| - 1], t);
      BaseAlways(config, es[..|es| - 1]);
      ExplainedStep(Run(config, es[..|es| - 1]), es[|es| - 1], t);
    }
  }
}
