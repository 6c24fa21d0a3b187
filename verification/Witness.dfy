/** Concrete runs: what goes wrong when a critical section outlives its lease, or a UUID has two spellings. */
module Witness {
  import opened Domain
  import opened TransactionTable
  import opened LeaseLock
  import opened Protocol
  import opened Keys
  import opened Leases
  import Lifecycle
  import Locking
  import IdempotencyTable

  lemma Then(config: Config, es: seq<Event>, e: Event)
    ensures Run(config, es + [e]) == Step(Run(config, es), e)
  {
    assert (es + [e])[..|es|] == es;
  }

  const PAY := PayIn(AuthorizeCapture, 7, "k", 10, "THB")
  const ROW := Transaction(1, 7, "k", AuthorizeCapture, 10, "THB", Authorized, Some("g"), None, None)
  const TAKEN := ROW.(status := Captured, capturedAt := Some(0))
  const AUTHORIZED := Call(AuthorizeCall, 1, 10, true)
  const CAPTURED := Call(CaptureCall, 1, 10, true)
  const VOIDED := Call(VoidCall, 1, 10, true)

  /** A payment is authorized. */
  lemma Authorizing(config: Config) returns (es: seq<Event>)
    requires config.parse("k") == Some(9)
    ensures var s := Run(config, es);
            && s.store.now == 0 && s.store.used == {0, 1} && s.store.rows == map[1 := ROW] && s.store.locks == map[]
            && s.store.log == [AUTHORIZED] && s.store.missed == [] && s.store.config == config && s.threads.Keys == {0}
            && s.store.cache == map[] && s.store.refunds == []
  {
    hide Run;
    es := [];
    var start := Run(config, es);
    assert start == Init(config) by { StartsEmpty(config); }
    Then(config, es, BeginE(0, PAY));
    es := es + [BeginE(0, PAY)];
    assert Run(config, es).threads == map[0 := Thread(PAY, Lookup, None, None)];
    Then(config, es, LookupE(0, false));
    es := es + [LookupE(0, false)];
    assert Run(config, es).threads[0].pc == Tokenize;
    Then(config, es, TokenizeE(0, true));
    es := es + [TokenizeE(0, true)];
    assert Run(config, es).threads[0].pc == Insert;
    Then(config, es, InsertE(0, 1, NoFault));
    es := es + [InsertE(0, 1, NoFault)];
    assert Run(config, es).store.rows == map[1 := NewRow(1, PAY)];
    Then(config, es, CallE(0, Accept("g"), 5));
    es := es + [CallE(0, Accept("g"), 5)];
    assert Run(config, es).threads[0].pc.Writing?;
    Then(config, es, WriteE(0, NoFault));
    es := es + [WriteE(0, NoFault)];
  }

  lemma StartsEmpty(config: Config)
    ensures Run(config, []) == Init(config)
  {
  }

  /** A capture takes the lock, reads, and stalls past its lease. */
  lemma Stalling(config: Config) returns (es: seq<Event>)
    requires config.parse("k") == Some(9)
    ensures var s := Run(config, es);
            && s.store.now == 5 && s.store.rows == map[1 := ROW] && s.store.log == [AUTHORIZED] && s.store.missed == []
            && s.store.used == {0, 1, 2} && s.store.locks == map[1 := Lease(2, 5)] && s.threads.Keys == {0, 1}
            && s.threads[1] == Thread(CaptureIn(7, 1), Calling(ROW), Some(Lease(2, 5)), None)
  {
    es := Authorizing(config);
    hide Run;
    Then(config, es, BeginE(1, CaptureIn(7, 1)));
    es := es + [BeginE(1, CaptureIn(7, 1))];
    Then(config, es, AcquireE(1, 2, NoFault));
    es := es + [AcquireE(1, 2, NoFault)];
    assert Run(config, es).threads[1] == Thread(CaptureIn(7, 1), Reading, Some(Lease(2, 5)), None);
    Then(config, es, ReadE(1, false));
    es := es + [ReadE(1, false)];
    Then(config, es, Tick(5));
    es := es + [Tick(5)];
  }

  /** A void takes the lock over and reads the same row. */
  lemma Voiding(config: Config) returns (es: seq<Event>)
    requires config.parse("k") == Some(9)
    ensures var s := Run(config, es);
            && s.store.rows == map[1 := ROW] && s.store.log == [AUTHORIZED] && s.store.missed == []
            && s.store.used == {0, 1, 2, 3} && s.threads.Keys == {0, 1, 2}
            && s.threads[1].input == CaptureIn(7, 1) && s.threads[2].input == VoidIn(7, 1)
            && s.threads[1].pc == Calling(ROW) && s.threads[2].pc == Calling(ROW) && !LeasedOn(s, 1)
  {
    es := Stalling(config);
    hide Run;
    Then(config, es, BeginE(2, VoidIn(7, 1)));
    es := es + [BeginE(2, VoidIn(7, 1))];
    Then(config, es, AcquireE(2, 3, NoFault));
    es := es + [AcquireE(2, 3, NoFault)];
    assert Run(config, es).threads[2].pc == Reading;
    Then(config, es, ReadE(2, false));
    es := es + [ReadE(2, false)];
    assert Locking.Critical(Run(config, es).threads[1]);
  }

  /** The gateway accepts both. */
  lemma VoidingAndCapturing(config: Config) returns (es: seq<Event>)
    requires config.parse("k") == Some(9)
    ensures var s := Run(config, es);
            && s.store.log == [AUTHORIZED, VOIDED, CAPTURED] && s.store.missed == [] && s.store.rows == map[1 := ROW]
            && s.threads.Keys == {0, 1, 2}
            && s.threads[1].input == CaptureIn(7, 1) && s.threads[2].input == VoidIn(7, 1)
            && s.threads[1].pc.Writing? && s.threads[1].pc.tx == ROW && s.threads[1].pc.call == CAPTURED
            && s.threads[1].pc.patch.status == Captured && s.threads[1].pc.refund == None
            && s.threads[2].pc == Writing(ROW, Patch(Voided, None, None, None), VOIDED, None)
    ensures !LeasedRunOn(config, es, 1)
  {
    es := Voiding(config);
    hide Run;
    ghost var stalled := es;
    Then(config, es, CallE(2, Accept(""), 8));
    es := es + [CallE(2, Accept(""), 8)];
    assert Run(config, es).threads[2].pc == Writing(ROW, Patch(Voided, None, None, None), VOIDED, None);
    Then(config, es, CallE(1, Accept(""), 8));
    es := es + [CallE(1, Accept(""), 8)];
    NotLeased(config, es, stalled, 1);
  }

  /** The void writes its status first. */
  lemma VoidFirst(config: Config) returns (es: seq<Event>)
    requires config.parse("k") == Some(9)
    ensures var s := Run(config, es);
            && s.store.log == [AUTHORIZED, VOIDED, CAPTURED] && s.store.missed == []
            && s.store.rows == map[1 := ROW.(status := Voided)]
            && 1 in s.threads && s.threads[1].input == CaptureIn(7, 1) && s.threads[1].pc.Writing?
            && s.threads[1].pc.tx == ROW && s.threads[1].pc.call == CAPTURED
            && s.threads[1].pc.patch.status == Captured && s.threads[1].pc.refund == None
    ensures !LeasedRunOn(config, es, 1)
  {
    es := VoidingAndCapturing(config);
    hide Run, LeasedOn;
    ghost var stalled := es;
    Then(config, es, WriteE(2, NoFault));
    es := es + [WriteE(2, NoFault)];
    NeverLeasedAgain(config, es, stalled, 1);
  }

  /**
   One expired lease is enough for a transaction to be captured and voided at the gateway, for a status write to
   miss its row, and for the missing capture to answer success with a zero id.
   */
  lemma LeasesNeeded(config: Config) returns (es: seq<Event>)
    requires config.parse("k") == Some(9)
    ensures var s := Run(config, es);
            && s.store.log == [AUTHORIZED, VOIDED, CAPTURED]
            && 1 in s.store.rows && s.store.rows[1].status == Voided && s.store.missed == [CAPTURED]
            && 1 in s.threads && s.threads[1].pc.Releasing?
            && s.threads[1].pc.reply == Ok(TxOutput(NIL_ID, if config.fillsOnMiss then Tx(Captured) else Blank))
    ensures !LeasedRunOn(config, es, 1)
  {
    es := VoidFirst(config);
    hide Run, LeasedOn;
    ghost var stalled := es;
    Lifecycle.ConfigKept(config, es);
    Then(config, es, WriteE(1, NoFault));
    es := es + [WriteE(1, NoFault)];
    NeverLeasedAgain(config, es, stalled, 1);
  }

  lemma {:induction false} NeverLeasedAgain(config: Config, es: seq<Event>, prefix: seq<Event>, t: Id)
    requires prefix <= es && !LeasedRunOn(config, prefix, t)
    ensures !LeasedRunOn(config, es, t)
  {
    hide Step, LeasedOn;
    if es != prefix {
      NeverLeasedAgain(config, es[..|es| - 1], prefix, t);
    } else {
      assert es == prefix;
    }
  }

  lemma {:induction false} NotLeased(config: Config, es: seq<Event>, prefix: seq<Event>, t: Id)
    requires prefix <= es && !LeasedOn(Run(config, prefix), t)
    ensures !LeasedRunOn(config, es, t)
  {
    hide Step, LeasedOn;
    if es != prefix {
      NotLeased(config, es[..|es| - 1], prefix, t);
    }
  }

  /** The lease hypothesis can be met: within five seconds of its start a run captures what it authorized. */
  lemma Capturing(config: Config) returns (es: seq<Event>)
    requires config.parse("k") == Some(9)
    ensures var s := Run(config, es);
            && s.store.now == 0 && s.store.used == {0, 1, 2} && s.store.log == [AUTHORIZED, CAPTURED]
            && s.store.rows == map[1 := TAKEN]
            && s.store.locks == map[] && s.store.cache == map[] && s.store.config == config && s.store.refunds == []
            && s.store.missed == [] && s.threads.Keys == {0, 1} && s.threads[1].pc == Done(Ok(TxOutput(1, Tx(Captured))))
    ensures LeasedRun(config, es)
  {
    es := Authorizing(config);
    hide Run;
    Then(config, es, BeginE(1, CaptureIn(7, 1)));
    es := es + [BeginE(1, CaptureIn(7, 1))];
    Then(config, es, AcquireE(1, 2, NoFault));
    es := es + [AcquireE(1, 2, NoFault)];
    assert Run(config, es).threads[1] == Thread(CaptureIn(7, 1), Reading, Some(Lease(2, 5)), None);
    assert Run(config, es).store.locks == map[1 := Lease(2, 5)];
    es := CapturingOn(config, es);
    ShortRunLeased(config, es);
  }

  lemma CapturingOn(config: Config, start: seq<Event>) returns (es: seq<Event>)
    requires var s := Run(config, start);
             && s.store.now == 0 && s.store.used == {0, 1, 2} && s.store.rows == map[1 := ROW] && s.store.log == [AUTHORIZED]
             && s.store.locks == map[1 := Lease(2, 5)] && s.store.cache == map[] && s.store.config == config
             && s.store.refunds == [] && s.store.missed == [] && s.threads.Keys == {0, 1}
             && s.threads[1] == Thread(CaptureIn(7, 1), Reading, Some(Lease(2, 5)), None)
    ensures var s := Run(config, es);
            && s.store.now == 0 && s.store.used == {0, 1, 2} && s.store.log == [AUTHORIZED, CAPTURED]
            && s.store.rows == map[1 := TAKEN]
            && s.store.locks == map[] && s.store.cache == map[] && s.store.config == config && s.store.refunds == []
            && s.store.missed == [] && s.threads.Keys == {0, 1} && s.threads[1].pc == Done(Ok(TxOutput(1, Tx(Captured))))
  {
    hide Run;
    es := start;
    Then(config, es, ReadE(1, false));
    es := es + [ReadE(1, false)];
    assert Run(config, es).threads[1] == Thread(CaptureIn(7, 1), Calling(ROW), Some(Lease(2, 5)), None);
    Then(config, es, CallE(1, Accept(""), 8));
    es := es + [CallE(1, Accept(""), 8)];
    assert Run(config, es).threads[1].pc == Writing(ROW, Patch(Captured, None, None, Some(0)), CAPTURED, None);
    Then(config, es, WriteE(1, NoFault));
    es := es + [WriteE(1, NoFault)];
    assert Run(config, es).threads[1].pc == Releasing(Ok(TxOutput(1, Tx(Captured))));
    Then(config, es, ReleaseE(1, true));
    es := es + [ReleaseE(1, true)];
    assert Run(config, es).store.locks == map[];
  }

  // ----- what the shared cache repeats -----

  const DECLINED := TxOutput(1, Tx(Failed))

  /** A declined payment leaves its output to be cached. */
  lemma Declining(config: Config) returns (es: seq<Event>)
    requires config.parse("k") == Some(9)
    ensures var s := Run(config, es);
            && s.store.config == config && s.store.now == 0 && s.store.cache == map[] && s.threads.Keys == {0}
            && s.threads[0] == Thread(PAY, Done(Rejected(DECLINED)), None, Some(Saving(9, DECLINED)))
  {
    hide Run;
    es := [];
    StartsEmpty(config);
    Then(config, es, BeginE(0, PAY));
    es := es + [BeginE(0, PAY)];
    assert Run(config, es).threads == map[0 := Thread(PAY, Lookup, None, None)];
    Then(config, es, LookupE(0, false));
    es := es + [LookupE(0, false)];
    assert Run(config, es).threads[0].pc == Tokenize;
    Then(config, es, TokenizeE(0, true));
    es := es + [TokenizeE(0, true)];
    assert Run(config, es).threads[0].pc == Insert;
    Then(config, es, InsertE(0, 1, NoFault));
    es := es + [InsertE(0, 1, NoFault)];
    assert Run(config, es).store.rows == map[1 := NewRow(1, PAY)];
    Then(config, es, CallE(0, Declined("no"), 5));
    es := es + [CallE(0, Declined("no"), 5)];
    assert Run(config, es).threads[0].pc.Writing?;
    Then(config, es, WriteE(0, NoFault));
    es := es + [WriteE(0, NoFault)];
  }

  /** The same payment asked for again replays a declined one without the error its first answer came with. */
  lemma ErrorDropped(config: Config) returns (es: seq<Event>)
    requires config.parse("k") == Some(9)
    ensures var s := Run(config, es);
            && {0, 1} <= s.threads.Keys && s.threads[0].input == s.threads[1].input == PAY
            && s.threads[0].pc == Done(Rejected(DECLINED)) && s.threads[1].pc == Done(Replay(DECLINED))
  {
    es := Declining(config);
    hide Run;
    Then(config, es, SaveE(0, true));
    es := es + [SaveE(0, true)];
    assert Run(config, es).store.cache == map[9 := IdempotencyTable.CacheRow(7, DECLINED, 86400)];
    Then(config, es, BeginE(1, PAY));
    es := es + [BeginE(1, PAY)];
    assert Run(config, es).threads[1].pc == Lookup;
    Then(config, es, LookupE(1, false));
    es := es + [LookupE(1, false)];
  }

  const REFUND := RefundIn(7, 1, 20)
  const AGAIN := RefundIn(7, 1, 21)
  const REFUNDED := Call(RefundCall, 1, 10, true)
  const REFUND_PATCH := Patch(Refunded, None, None, None)

  function RowOfRefund(id: Id, ref: string): RefundRow {
    RefundRow(id, 1, 7, 10, ref)
  }

  /** A refund of the captured transaction takes the lock. */
  lemma RefundLocking(config: Config) returns (es: seq<Event>)
    requires config.parse("k") == Some(9)
    ensures var s := Run(config, es);
            && s.store.now == 0 && s.store.used == {0, 1, 2, 3} && s.store.config == config
            && s.store.rows == map[1 := TAKEN]
            && s.store.cache == map[] && s.store.refunds == [] && s.threads.Keys == {0, 1, 2}
            && s.threads[2] == Thread(REFUND, Reading, Some(Lease(3, 5)), None)
  {
    es := Capturing(config);
    hide Run;
    Then(config, es, BeginE(2, REFUND));
    es := es + [BeginE(2, REFUND)];
    assert Run(config, es).threads[2].pc == Lookup;
    Then(config, es, LookupE(2, false));
    es := es + [LookupE(2, false)];
    assert Run(config, es).threads[2] == Thread(REFUND, Locking, None, None);
    Then(config, es, AcquireE(2, 3, NoFault));
    es := es + [AcquireE(2, 3, NoFault)];
  }

  /** The gateway accepts it. */
  lemma RefundAccepted(config: Config) returns (es: seq<Event>)
    requires config.parse("k") == Some(9)
    ensures var s := Run(config, es);
            && s.store.now == 0 && s.store.config == config && s.store.cache == map[] && s.store.refunds == []
            && s.store.rows == map[1 := TAKEN] && s.threads.Keys == {0, 1, 2}
            && s.threads[2] == Thread(REFUND, Writing(TAKEN, REFUND_PATCH, REFUNDED, Some(RowOfRefund(8, "a"))),
                                      Some(Lease(3, 5)), None)
  {
    es := RefundLocking(config);
    hide Run;
    Then(config, es, ReadE(2, false));
    es := es + [ReadE(2, false)];
    assert Run(config, es).threads[2] == Thread(REFUND, Calling(TAKEN), Some(Lease(3, 5)), None);
    Then(config, es, CallE(2, Accept("a"), 8));
    es := es + [CallE(2, Accept("a"), 8)];
  }

  /** It succeeds. */
  lemma RefundingOnce(config: Config) returns (es: seq<Event>)
    requires config.parse("k") == Some(9)
    ensures var s := Run(config, es);
            && s.store.now == 0 && s.store.config == config && s.store.cache == map[]
            && s.store.refunds == [RowOfRefund(8, "a")] && s.store.rows.Keys == {1} && s.threads.Keys == {0, 1, 2}
            && s.threads[2] == Thread(REFUND, Releasing(Ok(RefundOutput(8, Processing))), Some(Lease(3, 5)),
                                      Some(Saving(20, RefundOutput(8, Processing))))
  {
    es := RefundAccepted(config);
    hide Run;
    Then(config, es, WriteE(2, NoFault));
    es := es + [WriteE(2, NoFault)];
    assert Run(config, es).threads[2] == Thread(REFUND, Recording(TAKEN, RowOfRefund(8, "a")), Some(Lease(3, 5)), None);
    Then(config, es, RecordE(2, NoFault));
    es := es + [RecordE(2, NoFault)];
  }

  /** A Refund of a transaction that does not exist, under a key already used, replays the other transaction's refund. */
  lemma RefundReplayedElsewhere(config: Config) returns (es: seq<Event>)
    requires config.parse("k") == Some(9)
    ensures var s := Run(config, es);
            && s.store.rows.Keys == {1} && s.store.refunds == [RowOfRefund(8, "a")]
            && 3 in s.threads && s.threads[3].input == RefundIn(7, 99, 20)
            && s.threads[3].pc == Done(Replay(RefundOutput(8, Processing)))
  {
    es := RefundingOnce(config);
    hide Run;
    Then(config, es, SaveE(2, true));
    es := es + [SaveE(2, true)];
    assert Run(config, es).store.cache == map[20 := IdempotencyTable.CacheRow(7, RefundOutput(8, Processing), 86400)];
    Then(config, es, BeginE(3, RefundIn(7, 99, 20)));
    es := es + [BeginE(3, RefundIn(7, 99, 20))];
    assert Run(config, es).threads[3].pc == Lookup;
    Then(config, es, LookupE(3, false));
    es := es + [LookupE(3, false)];
  }

  // ----- direct charges -----

  const CHARGE := PayIn(DirectCharge, 7, "k", 10, "THB")
  const PAID := Transaction(1, 7, "k", DirectCharge, 10, "THB", Captured, Some("g"), None, None)

  /** With the nil dereference out of the way a direct charge does complete. */
  lemma Charging(config: Config) returns (es: seq<Event>)
    requires config.parse("k") == Some(9) && config.chargePatched
    ensures var s := Run(config, es);
            && s.store.now == 0 && s.store.used == {0, 1} && s.store.rows == map[1 := PAID] && s.store.locks == map[]
            && s.store.log == [CAPTURED] && s.store.refunds == [] && s.store.missed == [] && s.store.cache == map[]
            && s.store.config == config && s.threads.Keys == {0}
  {
    hide Run;
    es := [];
    StartsEmpty(config);
    Then(config, es, BeginE(0, CHARGE));
    es := es + [BeginE(0, CHARGE)];
    assert Run(config, es).threads == map[0 := Thread(CHARGE, Lookup, None, None)];
    Then(config, es, LookupE(0, false));
    es := es + [LookupE(0, false)];
    Then(config, es, TokenizeE(0, true));
    es := es + [TokenizeE(0, true)];
    assert Run(config, es).threads[0].pc == Insert;
    Then(config, es, InsertE(0, 1, NoFault));
    es := es + [InsertE(0, 1, NoFault)];
    assert Run(config, es).store.rows == map[1 := NewRow(1, CHARGE)];
    Then(config, es, CallE(0, Accept("g"), 5));
    es := es + [CallE(0, Accept("g"), 5)];
    assert Run(config, es).threads[0].pc.Writing?;
    Then(config, es, WriteE(0, NoFault));
    es := es + [WriteE(0, NoFault)];
  }

  // ----- two refunds of one transaction -----

  /** Two refunds with different keys both miss the cache. */
  lemma MissingCache(config: Config) returns (es: seq<Event>)
    requires config.parse("k") == Some(9)
    ensures var s := Run(config, es);
            && s.store.now == 0 && s.store.rows == map[1 := TAKEN] && s.store.log == [AUTHORIZED, CAPTURED]
            && s.store.refunds == [] && s.store.missed == [] && s.store.used == {0, 1, 2} && s.store.locks == map[]
            && s.threads.Keys == {0, 1, 2, 3}
            && s.threads[2] == Thread(REFUND, Locking, None, None) && s.threads[3] == Thread(AGAIN, Locking, None, None)
  {
    es := Capturing(config);
    hide Run, LeasedRun;
    Then(config, es, BeginE(2, REFUND));
    es := es + [BeginE(2, REFUND)];
    Then(config, es, LookupE(2, false));
    es := es + [LookupE(2, false)];
    assert Run(config, es).threads[2] == Thread(REFUND, Locking, None, None);
    Then(config, es, BeginE(3, AGAIN));
    es := es + [BeginE(3, AGAIN)];
    assert Run(config, es).threads[3] == Thread(AGAIN, Lookup, None, None);
    Then(config, es, LookupE(3, false));
    es := es + [LookupE(3, false)];
  }

  /** The first one takes the lock, reads the captured row and stalls past its lease. */
  lemma Falling(config: Config) returns (es: seq<Event>)
    requires config.parse("k") == Some(9)
    ensures var s := Run(config, es);
            && s.store.now == 5 && s.store.rows == map[1 := TAKEN] && s.store.log == [AUTHORIZED, CAPTURED]
            && s.store.refunds == [] && s.store.missed == [] && s.store.used == {0, 1, 2, 3}
            && s.store.locks == map[1 := Lease(3, 5)] && s.threads.Keys == {0, 1, 2, 3}
            && s.threads[2] == Thread(REFUND, Calling(TAKEN), Some(Lease(3, 5)), None)
            && s.threads[3] == Thread(AGAIN, Locking, None, None)
    ensures !LeasedRunOn(config, es, 1)
  {
    es := MissingCache(config);
    hide Run;
    Then(config, es, AcquireE(2, 3, NoFault));
    es := es + [AcquireE(2, 3, NoFault)];
    assert Run(config, es).threads[2] == Thread(REFUND, Reading, Some(Lease(3, 5)), None);
    Then(config, es, ReadE(2, false));
    es := es + [ReadE(2, false)];
    Then(config, es, Tick(5));
    es := es + [Tick(5)];
    assert Locking.Critical(Run(config, es).threads[2]) && !LeasedOn(Run(config, es), 1);
    NotLeased(config, es, es, 1);
  }

  /** The second one takes the lock over. */
  lemma Overtaking(config: Config) returns (es: seq<Event>)
    requires config.parse("k") == Some(9)
    ensures var s := Run(config, es);
            && s.store.rows == map[1 := TAKEN] && s.store.log == [AUTHORIZED, CAPTURED] && s.store.refunds == []
            && s.store.missed == [] && s.store.used == {0, 1, 2, 3, 4} && s.threads.Keys == {0, 1, 2, 3}
            && s.threads[2] == Thread(REFUND, Calling(TAKEN), Some(Lease(3, 5)), None)
            && s.threads[3] == Thread(AGAIN, Reading, Some(Lease(4, 10)), None)
    ensures !LeasedRunOn(config, es, 1)
  {
    es := Falling(config);
    hide Run, LeasedOn;
    ghost var stalled := es;
    Then(config, es, AcquireE(3, 4, NoFault));
    es := es + [AcquireE(3, 4, NoFault)];
    NeverLeasedAgain(config, es, stalled, 1);
  }

  /** It reads the same row. */
  lemma Rereading(config: Config) returns (es: seq<Event>)
    requires config.parse("k") == Some(9)
    ensures var s := Run(config, es);
            && s.store.rows == map[1 := TAKEN] && s.store.log == [AUTHORIZED, CAPTURED] && s.store.refunds == []
            && s.store.missed == [] && s.store.used == {0, 1, 2, 3, 4} && s.threads.Keys == {0, 1, 2, 3}
            && s.threads[2].input == REFUND && s.threads[3].input == AGAIN
            && s.threads[2].pc == Calling(TAKEN) && s.threads[3].pc == Calling(TAKEN)
    ensures !LeasedRunOn(config, es, 1)
  {
    es := Overtaking(config);
    hide Run, LeasedOn;
    ghost var stalled := es;
    assert Decide(Run(config, es).store.rows, AGAIN) == Proceed(TAKEN);
    Then(config, es, ReadE(3, false));
    es := es + [ReadE(3, false)];
    NeverLeasedAgain(config, es, stalled, 1);
  }

  /** The gateway accepts the second one. */
  lemma RefundingOver(config: Config) returns (es: seq<Event>)
    requires config.parse("k") == Some(9)
    ensures var s := Run(config, es);
            && s.store.log == [AUTHORIZED, CAPTURED, REFUNDED] && s.store.missed == [] && s.store.refunds == []
            && s.store.rows == map[1 := TAKEN] && s.store.used == {0, 1, 2, 3, 4, 9} && s.threads.Keys == {0, 1, 2, 3}
            && s.threads[2].input == REFUND && s.threads[3].input == AGAIN && s.threads[2].pc == Calling(TAKEN)
            && s.threads[3].pc == Writing(TAKEN, REFUND_PATCH, REFUNDED, Some(RowOfRefund(9, "b")))
    ensures !LeasedRunOn(config, es, 1)
  {
    es := Rereading(config);
    hide Run, LeasedOn;
    ghost var stalled := es;
    Then(config, es, CallE(3, Accept("b"), 9));
    es := es + [CallE(3, Accept("b"), 9)];
    NeverLeasedAgain(config, es, stalled, 1);
  }

  /** The gateway accepts both refunds. */
  lemma RefundingTwice(config: Config) returns (es: seq<Event>)
    requires config.parse("k") == Some(9)
    ensures var s := Run(config, es);
            && s.store.log == [AUTHORIZED, CAPTURED, REFUNDED, REFUNDED] && s.store.missed == [] && s.store.refunds == []
            && s.store.rows == map[1 := TAKEN] && s.threads.Keys == {0, 1, 2, 3}
            && s.threads[2].input == REFUND && s.threads[3].input == AGAIN
            && s.threads[2].pc == Writing(TAKEN, REFUND_PATCH, REFUNDED, Some(RowOfRefund(8, "a")))
            && s.threads[3].pc == Writing(TAKEN, REFUND_PATCH, REFUNDED, Some(RowOfRefund(9, "b")))
    ensures !LeasedRunOn(config, es, 1)
  {
    es := RefundingOver(config);
    hide Run, LeasedOn;
    ghost var stalled := es;
    Then(config, es, CallE(2, Accept("a"), 8));
    es := es + [CallE(2, Accept("a"), 8)];
    NeverLeasedAgain(config, es, stalled, 1);
  }

  /** The second one writes the status and records its refund. */
  lemma Refunding(config: Config) returns (es: seq<Event>)
    requires config.parse("k") == Some(9)
    ensures var s := Run(config, es);
            && s.store.log == [AUTHORIZED, CAPTURED, REFUNDED, REFUNDED] && s.store.missed == []
            && s.store.refunds == [RowOfRefund(9, "b")]
            && 1 in s.store.rows && s.store.rows[1].status == Refunded && {2, 3} <= s.threads.Keys
            && s.threads[2].input == REFUND
            && s.threads[2].pc == Writing(TAKEN, REFUND_PATCH, REFUNDED, Some(RowOfRefund(8, "a")))
            && s.threads[3].pc == Releasing(Ok(RefundOutput(9, Processing)))
    ensures !LeasedRunOn(config, es, 1)
  {
    es := RefundingTwice(config);
    hide Run, LeasedOn;
    ghost var stalled := es;
    Then(config, es, WriteE(3, NoFault));
    es := es + [WriteE(3, NoFault)];
    assert Run(config, es).threads[3].pc == Recording(TAKEN, RowOfRefund(9, "b"));
    Then(config, es, RecordE(3, NoFault));
    es := es + [RecordE(3, NoFault)];
    NeverLeasedAgain(config, es, stalled, 1);
  }

  /** The first one's status write misses, and it goes on to record its refund as well. */
  lemma RefundingAgain(config: Config) returns (es: seq<Event>)
    requires config.parse("k") == Some(9)
    ensures var s := Run(config, es);
            && s.store.log == [AUTHORIZED, CAPTURED, REFUNDED, REFUNDED] && s.store.missed == [REFUNDED]
            && s.store.refunds == [RowOfRefund(9, "b")]
            && 1 in s.store.rows && s.store.rows[1].status == Refunded && {2, 3} <= s.threads.Keys
            && s.threads[2].input == REFUND && s.threads[2].pc == Recording(TAKEN, RowOfRefund(8, "a"))
            && s.threads[3].pc == Releasing(Ok(RefundOutput(9, Processing)))
    ensures !LeasedRunOn(config, es, 1)
  {
    es := Refunding(config);
    hide Run, LeasedOn;
    ghost var stalled := es;
    Then(config, es, WriteE(2, NoFault));
    es := es + [WriteE(2, NoFault)];
    NeverLeasedAgain(config, es, stalled, 1);
  }

  /**
   One expired lease is enough for a transaction to be refunded twice at the gateway and get two refund rows, both
   answered as successes; the row is refunded all the same.
   */
  lemma RefundsNeedLeases(config: Config) returns (es: seq<Event>)
    requires config.parse("k") == Some(9)
    ensures var s := Run(config, es);
            && s.store.log == [AUTHORIZED, CAPTURED, REFUNDED, REFUNDED] && s.store.missed == [REFUNDED]
            && s.store.refunds == [RowOfRefund(9, "b"), RowOfRefund(8, "a")]
            && 1 in s.store.rows && s.store.rows[1].status == Refunded
            && {2, 3} <= s.threads.Keys
            && s.threads[2].pc == Releasing(Ok(RefundOutput(8, Processing)))
            && s.threads[3].pc == Releasing(Ok(RefundOutput(9, Processing)))
    ensures !LeasedRunOn(config, es, 1)
  {
    es := RefundingAgain(config);
    hide Run, LeasedOn;
    ghost var stalled := es;
    Then(config, es, RecordE(2, NoFault));
    es := es + [RecordE(2, NoFault)];
    NeverLeasedAgain(config, es, stalled, 1);
  }

  /** A refund whose row cannot be inserted leaves its transaction refunded without one. */
  lemma RefundUnrecorded(config: Config) returns (es: seq<Event>)
    requires config.parse("k") == Some(9)
    ensures var s := Run(config, es);
            && s.store.rows.Keys == {1} && s.store.rows[1].status == Refunded && s.store.refunds == []
            && 2 in s.threads && s.threads[2].input == REFUND && s.threads[2].pc == Releasing(Err(Database))
  {
    es := RefundAccepted(config);
    hide Run;
    Then(config, es, WriteE(2, NoFault));
    es := es + [WriteE(2, NoFault)];
    assert Run(config, es).threads[2] == Thread(REFUND, Recording(TAKEN, RowOfRefund(8, "a")), Some(Lease(3, 5)), None);
    Then(config, es, RecordE(2, NotApplied));
    es := es + [RecordE(2, NotApplied)];
  }

  // ----- one payment per parsed key? -----

  /** No two gateway calls open payments under raw keys that parse to one UUID. */
  ghost predicate OncePerParsedKey(g: Store)
    requires LogOk(g.rows, g.log)
  {
    forall i, j :: 0 <= i < j < |g.log| && Opens(g.rows, g.log[i]) && Opens(g.rows, g.log[j]) ==>
      var a, b := g.rows[g.log[i].txId].key, g.rows[g.log[j].txId].key;
      !(g.config.parse(a).Some? && g.config.parse(a) == g.config.parse(b))
  }

  ghost predicate OnceInEveryRun(config: Config) {
    forall es :: LogOk(Run(config, es).store.rows, Run(config, es).store.log) && OncePerParsedKey(Run(config, es).store)
  }

  predicate SpelledTwice(config: Config, a: string, b: string) {
    a != b && config.parse(a).Some? && config.parse(a) == config.parse(b)
  }

  function PayWith(key: string): Input {
    PayIn(AuthorizeCapture, 7, key, 10, "THB")
  }

  /** Two requests under two spellings of one UUID both miss the cache and insert their rows. */
  lemma Racing(config: Config, a: string, b: string) returns (es: seq<Event>)
    requires SpelledTwice(config, a, b)
    ensures var s := Run(config, es);
            && s.store.rows == map[1 := NewRow(1, PayWith(a)), 2 := NewRow(2, PayWith(b))] && s.store.log == []
            && s.store.used == {0, 1, 2} && s.store.config == config && s.threads.Keys == {0, 1}
            && s.threads[0].input == PayWith(a) && s.threads[0].pc == Calling(NewRow(1, PayWith(a)))
            && s.threads[1].input == PayWith(b) && s.threads[1].pc == Calling(NewRow(2, PayWith(b)))
  {
    es := Missing(config, a, b);
    hide Run;
    Then(config, es, InsertE(0, 1, NoFault));
    es := es + [InsertE(0, 1, NoFault)];
    assert Run(config, es).store.rows == map[1 := NewRow(1, PayWith(a))];
    assert !KeyTaken(Run(config, es).store.rows, b);
    Then(config, es, InsertE(1, 2, NoFault));
    es := es + [InsertE(1, 2, NoFault)];
  }

  lemma Missing(config: Config, a: string, b: string) returns (es: seq<Event>)
    requires SpelledTwice(config, a, b)
    ensures var s := Run(config, es);
            && s.store.rows == map[] && s.store.log == [] && s.store.used == {0} && s.store.config == config
            && s.threads == map[0 := Thread(PayWith(a), Insert, None, None), 1 := Thread(PayWith(b), Insert, None, None)]
  {
    hide Run;
    es := [];
    StartsEmpty(config);
    Then(config, es, BeginE(0, PayWith(a)));
    es := es + [BeginE(0, PayWith(a))];
    Then(config, es, BeginE(1, PayWith(b)));
    es := es + [BeginE(1, PayWith(b))];
    Then(config, es, LookupE(0, false));
    es := es + [LookupE(0, false)];
    assert Run(config, es).threads[0].pc == Tokenize;
    Then(config, es, LookupE(1, false));
    es := es + [LookupE(1, false)];
    assert Run(config, es).threads[1].pc == Tokenize;
    Then(config, es, TokenizeE(0, true));
    es := es + [TokenizeE(0, true)];
    Then(config, es, TokenizeE(1, true));
    es := es + [TokenizeE(1, true)];
  }

  lemma TwoPayments(config: Config, a: string, b: string) returns (es: seq<Event>)
    requires SpelledTwice(config, a, b)
    ensures var g := Run(config, es).store;
            && g.rows == map[1 := NewRow(1, PayWith(a)), 2 := NewRow(2, PayWith(b))] && g.config == config
            && g.log == [Call(AuthorizeCall, 1, 10, true), Call(AuthorizeCall, 2, 10, true)]
  {
    es := Racing(config, a, b);
    hide Run;
    Then(config, es, CallE(0, Accept("g"), 3));
    es := es + [CallE(0, Accept("g"), 3)];
    assert Run(config, es).store.log == [Call(AuthorizeCall, 1, 10, true)];
    assert Run(config, es).threads[1].pc == Calling(NewRow(2, PayWith(b)));
    Then(config, es, CallE(1, Accept("h"), 3));
    es := es + [CallE(1, Accept("h"), 3)];
  }

  /**
   The UNIQUE column holds the raw string and the cache the parsed UUID. One payment per parsed key in every run
   holds exactly when no UUID that parses has two spellings.
   */
  lemma ParsedKeyIff(config: Config)
    ensures OnceInEveryRun(config) <==> forall a, b :: !SpelledTwice(config, a, b)
  {
    hide Run, Step;
    if a, b :| SpelledTwice(config, a, b) {
      var es := TwoPayments(config, a, b);
      var g := Run(config, es).store;
      assert LogOk(g.rows, g.log) && Opens(g.rows, g.log[0]) && Opens(g.rows, g.log[1]);
      assert !OncePerParsedKey(g);
    } else {
      forall es
        ensures LogOk(Run(config, es).store.rows, Run(config, es).store.log) && OncePerParsedKey(Run(config, es).store)
      {
        AtMostOnceByKey(config, es);
        Lifecycle.ConfigKept(config, es);
        var g := Run(config, es).store;
        forall i, j | 0 <= i < j < |g.log| && Opens(g.rows, g.log[i]) && Opens(g.rows, g.log[j])
          ensures var a, b := g.rows[g.log[i].txId].key, g.rows[g.log[j].txId].key;
                  !(g.config.parse(a).Some? && g.config.parse(a) == g.config.parse(b))
        {
          assert !SpelledTwice(config, g.rows[g.log[i].txId].key, g.rows[g.log[j].txId].key);
        }
      }
    }
  }
}
