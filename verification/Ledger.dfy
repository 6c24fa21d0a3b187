/** Sums over the values of a map. */
module Sums {
  ghost function Pick<K, V>(m: map<K, V>): (k: K)
    requires m != map[]
    ensures k in m
  {
    assert m.Keys != {};
    var k :| k in m.Keys;
    k
  }

  ghost function Sum<K, V>(m: map<K, V>, w: V -> int): int
    decreases |m|
  {
    if m == map[] then 0 else w(m[Pick(m)]) + Sum(m - {Pick(m)}, w)
  }

  lemma {:induction false} SumSplit<K, V>(m: map<K, V>, w: V -> int, k: K)
    requires k in m
    ensures Sum(m, w) == w(m[k]) + Sum(m - {k}, w)
    decreases |m|
  {
    var p := Pick(m);
    if p != k {
      SumSplit(m - {p}, w, k);
      SumSplit(m - {k}, w, p);
      assert (m - {p}) - {k} == (m - {k}) - {p};
    }
  }

  lemma SumUpdate<K, V>(m: map<K, V>, w: V -> int, k: K, v: V)
    ensures Sum(m[k := v], w) == Sum(m, w) - (if k in m then w(m[k]) else 0) + w(v)
  {
    SumSplit(m[k := v], w, k);
    assert m[k := v] - {k} == m - {k};
    if k in m {
      SumSplit(m, w, k);
    } else {
      assert m - {k} == m;
    }
  }

  lemma {:induction false} SumNone<K, V>(m: map<K, V>, w: V -> int)
    requires forall k :: k in m ==> w(m[k]) == 0
    ensures Sum(m, w) == 0
    decreases |m|
  {
    if m != map[] {
      SumNone(m - {Pick(m)}, w);
    }
  }

  /** A sum to which one entry alone contributes. */
  lemma SumOne<K, V>(m: map<K, V>, w: V -> int, k: K)
    requires k in m && forall j :: j in m && j != k ==> w(m[j]) == 0
    ensures Sum(m, w) == w(m[k])
  {
    SumSplit(m, w, k);
    SumNone(m - {k}, w);
  }

  lemma {:induction false} SumAgrees<K, V>(m: map<K, V>, w: V -> int, u: V -> int)
    requires forall k :: k in m ==> w(m[k]) == u(m[k])
    ensures Sum(m, w) == Sum(m, u)
    decreases |m|
  {
    if m != map[] {
      SumAgrees(m - {Pick(m)}, w, u);
    }
  }
}

/** Conservation: every accepted gateway call is accounted for by a row, a request in flight, or a write that did not happen. */
module Ledger {
  import opened Domain
  import opened TransactionTable
  import opened Protocol
  import opened Safety
  import opened Sums

  /** The accepted calls a row's columns testify to, in order. */
  function Entries(row: Transaction): seq<Call> {
    var authorized := Call(AuthorizeCall, row.id, row.amount, true);
    var captured := Call(CaptureCall, row.id, row.amount, true);
    var opening := if row.kind == AuthorizeCapture then [authorized] else [];
    match row.status
    case Pending => []
    case Authorized => [authorized]
    case Captured => opening + [captured]
    case Failed => if row.gatewayRef.Some? then [authorized] else []
    case Voided => [authorized, Call(VoidCall, row.id, row.amount, true)]
    case Refunded => opening + [captured] + [Call(RefundCall, row.id, row.amount, true)]
  }

  /** The sum of a weight over the accepted calls. */
  ghost function Total(calls: seq<Call>, w: Call -> int): int {
    if calls == [] then 0
    else
      var last := calls[|calls| - 1];
      Total(calls[..|calls| - 1], w) + (if last.accepted then w(last) else 0)
  }

  lemma TotalAppend(calls: seq<Call>, c: Call, w: Call -> int)
    ensures Total(calls + [c], w) == Total(calls, w) + (if c.accepted then w(c) else 0)
  {
    assert (calls + [c])[..|calls|] == calls;
  }

  ghost function RowTotal(w: Call -> int): Transaction -> int {
    (row: Transaction) => Total(Entries(row), w)
  }

  /** The call a request has made and not yet written down. */
  function InFlight(th: Thread): seq<Call> {
    if th.pc.Writing? then [th.pc.call] else []
  }

  ghost function FlightTotal(w: Call -> int): Thread -> int {
    (th: Thread) => Total(InFlight(th), w)
  }

  /** The books for a weight of accepted calls. */
  ghost predicate Balanced(s: State, w: Call -> int) {
    Total(s.store.log, w)
    == Sum(s.store.rows, RowTotal(w)) + Sum(s.threads, FlightTotal(w)) + Total(s.store.failed, w) + Total(s.store.missed, w)
  }

  /** A patch adds to a row exactly the entry of the call it was made for. */
  lemma PatchedEntries(input: Input, tx: Transaction, patch: Patch, call: Call, row: Transaction)
    requires PatchOk(input, tx, patch, call) && SameIdentity(tx, row) && RowOk(row) && row.status == GuardOf(input)
    requires input.PayIn? ==> row.kind == input.kind
    requires input.CaptureIn? || input.VoidIn? ==> row.kind == AuthorizeCapture
    ensures Entries(Patched(row, patch)) == Entries(row) + if call.accepted then [call] else []
  {
  }

  /** The call is in flight; a rejected refund has nothing left to write. */
  predicate FlightOf(th: Thread, call: Call) {
    InFlight(th) == [call] || (InFlight(th) == [] && !call.accepted)
  }

  /** A step other than a status write logs at most its call, and gives up at most the call of a request that dies. */
  lemma BooksShape(g: Store, th: Thread, e: Event)
    requires Ready(g, th, e) && !e.WriteE?
    ensures var after := Act(g, th, e);
            && after.store.missed == g.missed
            && (|| (after.store.log == g.log && after.store.failed == g.failed && InFlight(after.th) == InFlight(th))
                || (exists call :: after.store.log == g.log + [call] && after.store.failed == g.failed
                                   && InFlight(th) == [] && FlightOf(after.th, call))
                || (after.store.log == g.log && InFlight(th) != [] && InFlight(after.th) == []
                    && after.store.failed == g.failed + InFlight(th)))
  {
    if e.CallE? {
      var call := Call(KindOf(th.input), th.pc.tx.id, th.pc.tx.amount, e.response.Accept?);
      assert Act(g, th, e).store.log == g.log || Act(g, th, e).store.log == g.log + [call];
    }
  }

  lemma TotalOne(calls: seq<Call>, one: seq<Call>, w: Call -> int)
    requires |one| <= 1
    ensures Total(calls + one, w) == Total(calls, w) + Total(one, w)
  {
    if one != [] {
      TotalAppend(calls, one[0], w);
      TotalAppend([], one[0], w);
      assert [] + [one[0]] == one;
      assert calls + [one[0]] == calls + one;
    } else {
      assert calls + one == calls;
    }
  }

  lemma BooksStep(g: Store, th: Thread, e: Event, w: Call -> int)
    requires Ready(g, th, e) && !e.WriteE?
    ensures var after := Act(g, th, e);
            Total(after.store.log, w) - Total(g.log, w)
            == Total(InFlight(after.th), w) - Total(InFlight(th), w)
               + Total(after.store.failed, w) - Total(g.failed, w) + Total(after.store.missed, w) - Total(g.missed, w)
  {
    hide Act;
    BooksShape(g, th, e);
    var after := Act(g, th, e);
    if after.store.log != g.log {
      var call :| after.store.log == g.log + [call] && FlightOf(after.th, call);
      TotalOne(g.log, [call], w);
      TotalAppend([], call, w);
      assert [] + [call] == [call];
    } else if after.store.failed != g.failed {
      TotalOne(g.failed, InFlight(th), w);
    }
  }

  lemma RowsStep(g: Store, th: Thread, e: Event, w: Call -> int)
    requires Ready(g, th, e) && !e.WriteE? && TableOk(g)
    ensures Sum(Act(g, th, e).store.rows, RowTotal(w)) == Sum(g.rows, RowTotal(w))
  {
    if e.InsertE? {
      SumUpdate(g.rows, RowTotal(w), e.id, NewRow(e.id, th.input));
    } else {
      RowsFixed(g, th, e);
    }
  }

  /** A status write lands on its row, or its call goes to the failed or to the missed writes. */
  lemma WriteFate(g: Store, th: Thread, e: Event)
    requires Ready(g, th, e) && e.WriteE?
    ensures var after := Act(g, th, e);
            var tx, call := th.pc.tx, th.pc.call;
            && after.store.log == g.log && InFlight(after.th) == []
            && (|| (e.fault == NotApplied && after.store.rows == g.rows
                    && after.store.failed == g.failed + [call] && after.store.missed == g.missed)
                || (e.fault != NotApplied && !Matches(g.rows, tx.id, GuardOf(th.input)) && after.store.rows == g.rows
                    && after.store.failed == g.failed && after.store.missed == g.missed + [call])
                || (e.fault != NotApplied && Matches(g.rows, tx.id, GuardOf(th.input))
                    && after.store.rows == g.rows[tx.id := Patched(g.rows[tx.id], th.pc.patch)]
                    && after.store.failed == g.failed && after.store.missed == g.missed))
  {
  }

  lemma WriteBooks(g: Store, th: Thread, e: Event, w: Call -> int)
    requires Ready(g, th, e) && e.WriteE? && TableOk(g) && PcOk(g.rows, th.input, th.pc)
    ensures var after := Act(g, th, e);
            && after.store.log == g.log && InFlight(after.th) == []
            && Sum(after.store.rows, RowTotal(w)) - Sum(g.rows, RowTotal(w))
               + Total(after.store.failed, w) - Total(g.failed, w) + Total(after.store.missed, w) - Total(g.missed, w)
               == Total(InFlight(th), w)
  {
    hide Act;
    WriteFate(g, th, e);
    var Writing(tx, patch, call, _) := th.pc;
    TotalOne(g.failed, [call], w);
    TotalOne(g.missed, [call], w);
    if e.fault != NotApplied && Matches(g.rows, tx.id, GuardOf(th.input)) {
      var row := g.rows[tx.id];
      PatchedEntries(th.input, tx, patch, call, row);
      TotalOne(Entries(row), if call.accepted then [call] else [], w);
      TotalAppend([], call, w);
      assert [] + [call] == [call];
      SumUpdate(g.rows, RowTotal(w), tx.id, Patched(row, patch));
    }
  }

  lemma BalancedStep(s: State, e: Event, w: Call -> int)
    requires Base(s) && Balanced(s, w)
    ensures Balanced(Step(s, e), w)
  {
    hide Act, PcOk, RowOk;
    if Moves(s, e) {
      var g, th := s.store, s.threads[e.r];
      SumUpdate(s.threads, FlightTotal(w), e.r, Act(g, th, e).th);
      if e.WriteE? {
        WriteBooks(g, th, e, w);
      } else {
        BooksStep(g, th, e, w);
        RowsStep(g, th, e, w);
      }
    } else if e.BeginE? && e.r !in s.threads {
      SumUpdate(s.threads, FlightTotal(w), e.r, Thread(e.input, Entry(e.input), None, None));
    }
  }

  /**
   In every reachable state, for every weight: the accepted calls in the gateway log weigh as much as the calls
   the rows testify to, plus those in flight, plus those whose status write failed, plus those whose write missed.
   */
  lemma {:induction false} Conservation(config: Config, es: seq<Event>, w: Call -> int)
    ensures Balanced(Run(config, es), w)
  {
    if es != [] {
      hide Step;
      Conservation(config, es[..|es| - 1], w);
      BaseAlways(config, es[..|es| - 1]);
      BalancedStep(Run(config, es[..|es| - 1]), es[|es| - 1], w);
    }
  }

  // ----- the calls on one transaction -----

  function Accepted(calls: seq<Call>): seq<Call> {
    if calls == [] then []
    else
      var last := calls[|calls| - 1];
      Accepted(calls[..|calls| - 1]) + if last.accepted then [last] else []
  }

  lemma AcceptedAppend(calls: seq<Call>, c: Call)
    ensures Accepted(calls + [c]) == Accepted(calls) + if c.accepted then [c] else []
  {
    assert (calls + [c])[..|calls|] == calls;
  }

  function Count(calls: seq<Call>, kind: CallKind, t: Id): nat {
    if calls == [] then 0
    else
      var last := calls[|calls| - 1];
      Count(calls[..|calls| - 1], kind, t) + if last.accepted && last.kind == kind && last.txId == t then 1 else 0
  }

  lemma CountAppend(calls: seq<Call>, c: Call, kind: CallKind, t: Id)
    ensures Count(calls + [c], kind, t)
            == Count(calls, kind, t) + if c.accepted && c.kind == kind && c.txId == t then 1 else 0
  {
    assert (calls + [c])[..|calls|] == calls;
  }

  /** Whether a status write of an accepted call on the transaction failed. */
  predicate Lossless(lost: seq<Call>, t: Id) {
    forall i :: 0 <= i < |lost| && lost[i].txId == t ==> !lost[i].accepted
  }

  lemma LosslessAppend(lost: seq<Call>, c: Call, t: Id)
    ensures Lossless(lost + [c], t) <==> Lossless(lost, t) && (c.txId == t ==> !c.accepted)
  {
    assert (lost + [c])[|lost|] == c;
    if Lossless(lost + [c], t) {
      forall i | 0 <= i < |lost| && lost[i].txId == t ensures !lost[i].accepted {
        assert (lost + [c])[i] == lost[i];
      }
    }
  }

  lemma {:induction false} CountNone(calls: seq<Call>, kind: CallKind, t: Id)
    requires forall i :: 0 <= i < |calls| ==> calls[i].txId != t
    ensures Count(calls, kind, t) == 0
  {
    if calls != [] {
      CountNone(calls[..|calls| - 1], kind, t);
    }
  }

  // ----- money -----

  /** What a call does to the merchant's balance. */
  function Money(c: Call): int {
    match c.kind
    case CaptureCall => c.amount
    case RefundCall => -c.amount
    case _ => 0
  }

  function Kept(row: Transaction): int {
    if row.status == Captured then row.amount else 0
  }

  function Unwritten(th: Thread): int {
    if th.pc.Writing? && th.pc.call.accepted then Money(th.pc.call) else 0
  }

  lemma RowMoney(row: Transaction)
    ensures Total(Entries(row), Money) == Kept(row)
  {
    var opening := if row.kind == AuthorizeCapture then [Call(AuthorizeCall, row.id, row.amount, true)] else [];
    var captured := Call(CaptureCall, row.id, row.amount, true);
    var authorized := Call(AuthorizeCall, row.id, row.amount, true);
    TotalAppend([], authorized, Money);
    assert [] + [authorized] == [authorized];
    TotalAppend(opening, captured, Money);
    TotalAppend(opening + [captured], Call(RefundCall, row.id, row.amount, true), Money);
    TotalAppend([authorized], Call(VoidCall, row.id, row.amount, true), Money);
    assert [authorized] + [Call(VoidCall, row.id, row.amount, true)]
           == [authorized, Call(VoidCall, row.id, row.amount, true)];
  }

  /**
   Amounts captured minus amounts refunded at the gateway are the amounts of the rows in status captured, plus
   the requests between their gateway call and their status write, plus the status writes that failed or missed.
   */
  lemma MoneyConserved(config: Config, es: seq<Event>)
    ensures var s := Run(config, es);
            Total(s.store.log, Money)
            == Sum(s.store.rows, Kept) + Sum(s.threads, Unwritten)
               + Total(s.store.failed, Money) + Total(s.store.missed, Money)
  {
    hide Step;
    var s := Run(config, es);
    Conservation(config, es, Money);
    forall t | t in s.store.rows ensures RowTotal(Money)(s.store.rows[t]) == Kept(s.store.rows[t]) {
      RowMoney(s.store.rows[t]);
    }
    SumAgrees(s.store.rows, RowTotal(Money), Kept);
    forall r | r in s.threads ensures FlightTotal(Money)(s.threads[r]) == Unwritten(s.threads[r]) {
      if s.threads[r].pc.Writing? {
        TotalAppend([], s.threads[r].pc.call, Money);
        assert [] + [s.threads[r].pc.call] == InFlight(s.threads[r]);
      }
    }
    SumAgrees(s.threads, FlightTotal(Money), Unwritten);
  }
}
