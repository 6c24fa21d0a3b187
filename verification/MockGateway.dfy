/** The only gateway the router wires in: stateless checks on each request. */
module MockGateway {
  import opened Protocol

  const MOCK_REF := "gw_mock_001"

  predicate OccursAt(s: string, sub: string, i: nat) {
    i + |sub| <= |s| && s[i..i + |sub|] == sub
  }

  predicate Contains(s: string, sub: string) {
    exists i: nat :: i <= |s| && OccursAt(s, sub, i)
  }

  function Authorize(amount: int, currency: string, orderID: string): Response {
    if amount <= 0 then Declined("amount invalid")
    else if orderID == "" || currency == "" || |currency| != 3 then Declined("card information invalid")
    else if amount == 99999 then Declined("card declined")
    else if amount == 9999 then Declined("insufficient funds")
    else Accept(MOCK_REF)
  }

  function Capture(ref: string, orderID: string): Response {
    if ref == "" then Declined("invalid gateway reference")
    else if orderID == "" then Declined("invalid body request")
    else if Contains(ref, "FAIL") then Declined("capture failed")
    else if Contains(ref, "TIMEOUT") then Declined("context deadline exceeded")
    else Accept(ref)
  }

  function Void(ref: string, orderID: string): Response {
    if ref == "" then Declined("invalid gateway reference")
    else if orderID == "" then Declined("invalid body request")
    else if Contains(ref, "VOID_FAIL") then Declined("capture failed")
    else if Contains(ref, "VOID_TIMEOUT") then Declined("context deadline exceeded")
    else Accept(ref)
  }

  /** uuid is the fresh identifier the refund reference ends with. */
  function Refund(ref: string, amount: int, uuid: string): Response {
    if ref == "" then Declined("invalid gateway reference")
    else if amount <= 0 then Declined("amount invalid")
    else if Contains(ref, "REFUND_FAIL") then Declined("capture failed")
    else if Contains(ref, "REFUND_TIMEOUT") then Declined("context deadline exceeded")
    else Accept("rf_" + uuid)
  }

  lemma ContainsFirst(s: string, sub: string)
    requires sub != "" && sub[0] !in s
    ensures !Contains(s, sub)
  {
    forall i: nat | i <= |s| ensures !OccursAt(s, sub, i) {
      if i + |sub| <= |s| {
        assert s[i..i + |sub|][0] == s[i];
      }
    }
  }

  /** The outcomes the mock simulates, and that it accepts whatever it does not. */
  lemma Simulations(amount: int, currency: string, orderID: string, ref: string, uuid: string)
    requires |currency| == 3 && orderID != "" && ref != ""
    ensures Authorize(amount, currency, orderID)
            == if amount <= 0 then Declined("amount invalid") else if amount == 99999 then Declined("card declined")
               else if amount == 9999 then Declined("insufficient funds") else Accept(MOCK_REF)
    ensures Capture(ref, orderID) == Accept(ref) <==> !Contains(ref, "FAIL") && !Contains(ref, "TIMEOUT")
    ensures Void(ref, orderID) == Accept(ref) <==> !Contains(ref, "VOID_FAIL") && !Contains(ref, "VOID_TIMEOUT")
    ensures Refund(ref, amount, uuid) == Accept("rf_" + uuid)
            <==> amount > 0 && !Contains(ref, "REFUND_FAIL") && !Contains(ref, "REFUND_TIMEOUT")
  {
  }

  /** The mock accepts everything about a row it authorized: its own reference never matches a simulated failure. */
  lemma OwnReferenceAccepted(amount: int, orderID: string, uuid: string)
    requires amount > 0 && orderID != ""
    ensures Capture(MOCK_REF, orderID).Accept? && Void(MOCK_REF, orderID).Accept? && Refund(MOCK_REF, amount, uuid).Accept?
  {
    ContainsFirst(MOCK_REF, "FAIL");
    ContainsFirst(MOCK_REF, "TIMEOUT");
    ContainsFirst(MOCK_REF, "VOID_FAIL");
    ContainsFirst(MOCK_REF, "VOID_TIMEOUT");
    ContainsFirst(MOCK_REF, "REFUND_FAIL");
    ContainsFirst(MOCK_REF, "REFUND_TIMEOUT");
  }
}

/** The service with the mock gateway: what is once authorized is never rejected again. */
module ClosedSystem {
  import opened Domain
  import opened TransactionTable
  import opened Protocol
  import opened Safety
  import opened Lifecycle
  import MockGateway

  /** text writes a UUID out; the mock is asked exactly what the service asks. */
  function MockAnswer(input: Input, tx: Transaction, text: Id -> string, uuid: Id): Response {
    var ref := match tx.gatewayRef case Some(ref) => ref case None => "";
    match KindOf(input)
    case AuthorizeCall => MockGateway.Authorize(tx.amount, tx.currency, text(tx.id))
    case CaptureCall => MockGateway.Capture(ref, text(tx.id))
    case VoidCall => MockGateway.Void(ref, text(tx.id))
    case RefundCall => MockGateway.Refund(ref, tx.amount, text(uuid))
  }

  /** The gateway's answer in the step, if it makes a call other than a direct charge's, is the mock's. */
  ghost predicate Mocked(s: State, e: Event, text: Id -> string) {
    Moves(s, e) && e.CallE? && (s.threads[e.r].input.PayIn? ==> s.threads[e.r].input.kind == AuthorizeCapture) ==>
      exists uuid :: e.response == MockAnswer(s.threads[e.r].input, s.threads[e.r].pc.tx, text, uuid)
  }

  ghost predicate MockedRun(config: Config, es: seq<Event>, text: Id -> string) {
    es != [] ==>
      MockedRun(config, es[..|es| - 1], text) && Mocked(Run(config, es[..|es| - 1]), es[|es| - 1], text)
  }

  /** A row the mock authorized: its reference, a positive amount, and no way to fail. */
  predicate MockRow(row: Transaction) {
    row.kind == AuthorizeCapture && row.gatewayRef.Some? ==>
      row.gatewayRef == Some(MockGateway.MOCK_REF) && row.amount > 0 && row.status != Failed
  }

  ghost predicate MockThread(th: Thread) {
    match th.pc
    case Calling(tx) => MockRow(tx)
    case Writing(tx, patch, _, _) =>
      && MockRow(tx)
      && (tx.kind == AuthorizeCapture && th.input.PayIn? && patch.status != Failed ==>
            patch.gatewayRef == Some(MockGateway.MOCK_REF) && tx.amount > 0)
      && (tx.kind == AuthorizeCapture && !th.input.PayIn? ==> patch.status != Failed && patch.gatewayRef.None?)
    case _ => true
  }

  ghost predicate MockState(s: State) {
    && (forall t :: t in s.store.rows ==> MockRow(s.store.rows[t]))
    && (forall r :: r in s.threads ==> MockThread(s.threads[r]))
  }

  lemma MockCall(g: Store, th: Thread, e: Event, text: Id -> string, uuid: Id)
    requires Ready(g, th, e) && e.CallE? && MockThread(th) && PcOk(g.rows, th.input, th.pc)
    requires th.input.PayIn? ==> th.input.kind == AuthorizeCapture
    requires (forall id :: text(id) != "") && e.response == MockAnswer(th.input, th.pc.tx, text, uuid)
    ensures MockThread(Act(g, th, e).th)
    ensures th.pc.tx.kind == AuthorizeCapture && !th.input.PayIn? ==> e.response.Accept?
  {
    if th.pc.tx.kind == AuthorizeCapture && !th.input.PayIn? {
      MockGateway.OwnReferenceAccepted(th.pc.tx.amount, text(th.pc.tx.id), text(uuid));
    }
  }

  lemma MockOtherCall(g: Store, th: Thread, e: Event)
    requires Ready(g, th, e) && e.CallE? && MockThread(th) && PcOk(g.rows, th.input, th.pc)
    requires th.input.PayIn? && th.input.kind == DirectCharge
    ensures MockThread(Act(g, th, e).th)
  {
  }

  lemma MockActor(g: Store, th: Thread, e: Event)
    requires Ready(g, th, e) && !e.CallE? && MockThread(th) && forall t :: t in g.rows ==> MockRow(g.rows[t])
    ensures MockThread(Act(g, th, e).th)
  {
  }

  lemma MockWrite(g: Store, th: Thread, e: Event)
    requires Ready(g, th, e) && e.WriteE? && MockThread(th) && PcOk(g.rows, th.input, th.pc)
    requires forall t :: t in g.rows ==> MockRow(g.rows[t])
    ensures forall t :: t in Act(g, th, e).store.rows ==> MockRow(Act(g, th, e).store.rows[t])
  {
    if Matches(g.rows, th.pc.tx.id, GuardOf(th.input)) {
      assert SameIdentity(th.pc.tx, g.rows[th.pc.tx.id]);
      assert MockRow(Patched(g.rows[th.pc.tx.id], th.pc.patch));
    }
  }

  lemma MockInsert(g: Store, th: Thread, e: Event)
    requires Ready(g, th, e) && e.InsertE?
    requires forall t :: t in g.rows ==> MockRow(g.rows[t])
    ensures forall t :: t in Act(g, th, e).store.rows ==> MockRow(Act(g, th, e).store.rows[t])
  {
  }

  lemma MockStep(s: State, e: Event, text: Id -> string)
    requires Base(s) && MockState(s) && Mocked(s, e, text) && forall id :: text(id) != ""
    ensures MockState(Step(s, e))
  {
    hide Act, PcOk, MockThread, MockRow, MockAnswer;
    if Moves(s, e) {
      var g, th := s.store, s.threads[e.r];
      if e.CallE? {
        RowsFixed(g, th, e);
        if th.input.PayIn? && th.input.kind == DirectCharge {
          MockOtherCall(g, th, e);
        } else {
          var uuid :| e.response == MockAnswer(th.input, th.pc.tx, text, uuid);
          MockCall(g, th, e, text, uuid);
        }
      } else {
        MockActor(g, th, e);
        if e.WriteE? {
          MockWrite(g, th, e);
        } else if e.InsertE? {
          MockInsert(g, th, e);
        } else {
          RowsFixed(g, th, e);
        }
      }
    } else {
      MockStill(s, e);
    }
  }

  lemma MockStill(s: State, e: Event)
    requires MockState(s) && !Moves(s, e)
    ensures MockState(Step(s, e))
  {
    hide Act;
  }

  lemma {:induction false} MockAlways(config: Config, es: seq<Event>, text: Id -> string)
    requires MockedRun(config, es, text) && forall id :: text(id) != ""
    ensures MockState(Run(config, es))
  {
    if es != [] {
      hide Step, Mocked, MockState;
      MockAlways(config, es[..|es| - 1], text);
      BaseAlways(config, es[..|es| - 1]);
      MockStep(Run(config, es[..|es| - 1]), es[|es| - 1], text);
    } else {
      assert Run(config, es) == Init(config);
    }
  }

  /** With the mock, a stored reference is the mock's, on a positive amount, and its row can no longer fail. */
  lemma AuthorizedNeverFails(config: Config, es: seq<Event>, later: seq<Event>, t: Id, text: Id -> string)
    requires MockedRun(config, es + later, text) && forall id :: text(id) != ""
    requires t in Run(config, es).store.rows && Run(config, es).store.rows[t].status == Authorized
    ensures t in Run(config, es + later).store.rows
    ensures var row := Run(config, es + later).store.rows[t];
            row.gatewayRef == Some(MockGateway.MOCK_REF) && row.amount > 0
            && row.status in {Authorized, Captured, Voided, Refunded}
  {
    hide Step;
    BaseAlways(config, es);
    RowOverTime(config, es, later, t);
    MockAlways(config, es + later, text);
    assert MockRow(Run(config, es + later).store.rows[t]);
  }

  /** And no later Capture, Void or Refund of an authorize_capture row is rejected by the gateway. */
  lemma NeverRejected(config: Config, es: seq<Event>, e: Event, text: Id -> string)
    requires MockedRun(config, es + [e], text) && forall id :: text(id) != ""
    requires Moves(Run(config, es), e) && e.CallE?
    requires !Run(config, es).threads[e.r].input.PayIn? && Run(config, es).threads[e.r].pc.tx.kind == AuthorizeCapture
    ensures e.response.Accept?
  {
    assert (es + [e])[..|es|] == es;
    assert (es + [e])[|es|] == e;
    MockAlways(config, es, text);
    BaseAlways(config, es);
    hide Act;
    var s := Run(config, es);
    var th := s.threads[e.r];
    assert MockThread(th) && PcOk(s.store.rows, th.input, th.pc);
    var uuid :| e.response == MockAnswer(th.input, th.pc.tx, text, uuid);
    MockCall(s.store, th, e, text, uuid);
  }
}
