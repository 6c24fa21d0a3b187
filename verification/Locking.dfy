/** The lease lock over whole runs: one unexpired holder per transaction, and nobody takes a holder's lease away. */
module Locking {
  import opened Domain
  import opened TransactionTable
  import opened IdempotencyTable
  import opened LeaseLock
  import opened Protocol
  import opened Safety

  /** The request was granted a lease that it has not returned and that time has not ended. */
  predicate Holds(s: State, r: Rid) {
    r in s.threads && s.threads[r].lease.Some? && s.store.now < s.threads[r].lease.value.expires
  }

  /** What Redis knows about a lease: its token is used, and the key still carries it unless it expired. */
  ghost predicate LeaseOk(g: Store, th: Thread) {
    th.lease.Some? ==>
      && !th.input.PayIn? && !th.pc.Lookup? && !th.pc.Locking? && th.lease.value.token in g.used
      && (g.now < th.lease.value.expires ==> th.input.txId in g.locks && g.locks[th.input.txId] == th.lease.value)
      && (forall t :: t in g.locks && g.locks[t].token == th.lease.value.token ==>
            t == th.input.txId && g.locks[t] == th.lease.value)
  }

  ghost predicate TokensUsed(g: Store) {
    forall t :: t in g.locks ==> g.locks[t].token in g.used
  }

  /** Between taking the lock and its last database write. */
  predicate Critical(th: Thread) {
    !th.input.PayIn? && (th.pc.Reading? || th.pc.Calling? || th.pc.Writing? || th.pc.Recording?)
  }

  ghost predicate LocksOk(s: State) {
    && TokensUsed(s.store)
    && (forall r :: r in s.threads ==>
          LeaseOk(s.store, s.threads[r]) && (Critical(s.threads[r]) ==> s.threads[r].lease.Some?))
    && (forall r, q | r in s.threads && q in s.threads && s.threads[r].lease.Some? && s.threads[q].lease.Some? ::
          s.threads[r].lease.value.token == s.threads[q].lease.value.token ==> r == q)
  }

  /** The step touches neither the locks nor what its request needs to hold one. */
  ghost predicate Lockless(g: Store, th: Thread, e: Event)
    requires Ready(g, th, e)
  {
    var after := Act(g, th, e);
    && after.store.locks == g.locks && after.th.lease == th.lease
    && (Critical(after.th) ==> Critical(th))
    && (after.th.pc.Lookup? || after.th.pc.Locking? ==> th.pc.Lookup? || th.pc.Locking?)
  }

  lemma WriterLockless(g: Store, th: Thread, e: Event)
    requires Ready(g, th, e) && (e.WriteE? || e.RecordE?)
    ensures Lockless(g, th, e)
  {
    hide CallStep, InsertStep, AcquireStep, ReadStep, LookupStep, ReleaseStep, SaveStep, CrashStep, Updated, ReturnedBy;
  }

  lemma CallerLockless(g: Store, th: Thread, e: Event)
    requires Ready(g, th, e) && e.CallE?
    ensures Lockless(g, th, e)
  {
    hide WriteStep, InsertStep, RecordStep, AcquireStep, ReadStep, LookupStep, ReleaseStep, SaveStep, CrashStep, PatchFor;
  }

  lemma RestLockless(g: Store, th: Thread, e: Event)
    requires Ready(g, th, e) && !e.AcquireE? && !e.ReleaseE? && !e.WriteE? && !e.RecordE? && !e.CallE?
    ensures Lockless(g, th, e)
  {
    hide CallStep, WriteStep, RecordStep, AcquireStep, ReleaseStep, Decide, Decoded, Cached, Inserted, InsertError;
  }

  /** Only acquiring and releasing touch the locks. */
  lemma LocksFixed(g: Store, th: Thread, e: Event)
    requires Ready(g, th, e) && !e.AcquireE? && !e.ReleaseE?
    ensures Act(g, th, e).store.locks == g.locks && Act(g, th, e).th.lease == th.lease
    ensures Critical(Act(g, th, e).th) ==> Critical(th)
    ensures Act(g, th, e).th.pc.Lookup? || Act(g, th, e).th.pc.Locking? ==> th.pc.Lookup? || th.pc.Locking?
  {
    assert Lockless(g, th, e) by {
      if e.WriteE? || e.RecordE? {
        WriterLockless(g, th, e);
      } else if e.CallE? {
        CallerLockless(g, th, e);
      } else {
        RestLockless(g, th, e);
      }
    }
    hide Act;
  }

  /** An acquire or release by one request leaves every other unexpired lease in place. */
  lemma LockerStep(g: Store, th: Thread, other: Thread, e: Event)
    requires Ready(g, th, e) && (e.AcquireE? || e.ReleaseE?)
    requires LeaseOk(g, th) && LeaseOk(g, other)
    requires th.lease.Some? && other.lease.Some? ==> th.lease.value.token != other.lease.value.token
    ensures LeaseOk(Act(g, th, e).store, other)
    ensures other.lease.Some? && Act(g, th, e).th.lease.Some? ==>
              Act(g, th, e).th.lease.value.token != other.lease.value.token
  {
  }

  lemma LockerSelf(g: Store, th: Thread, e: Event)
    requires Ready(g, th, e) && (e.AcquireE? || e.ReleaseE?) && LeaseOk(g, th)
    requires TokensUsed(g)
    ensures LeaseOk(Act(g, th, e).store, Act(g, th, e).th) && TokensUsed(Act(g, th, e).store)
    ensures Critical(Act(g, th, e).th) ==> Act(g, th, e).th.lease.Some?
  {
  }

  lemma LocksStep(s: State, e: Event)
    requires LocksOk(s)
    ensures LocksOk(Step(s, e))
  {
    hide Act;
    if Moves(s, e) {
      var g, th := s.store, s.threads[e.r];
      InputKept(g, th, e);
      UsedGrows(g, th, e);
      if e.AcquireE? || e.ReleaseE? {
        LockerSelf(g, th, e);
        forall q | q in s.threads && q != e.r
          ensures LeaseOk(Act(g, th, e).store, s.threads[q])
          ensures s.threads[q].lease.Some? && Act(g, th, e).th.lease.Some? ==>
                    Act(g, th, e).th.lease.value.token != s.threads[q].lease.value.token
        {
          LockerStep(g, th, s.threads[q], e);
        }
      } else {
        LocksFixed(g, th, e);
      }
    }
  }

  lemma {:induction false} LocksAlways(config: Config, es: seq<Event>)
    ensures LocksOk(Run(config, es))
  {
    if es != [] {
      hide Step;
      LocksAlways(config, es[..|es| - 1]);
      LocksStep(Run(config, es[..|es| - 1]), es[|es| - 1]);
    }
  }

  /** At every moment at most one request holds an unexpired lease on a transaction, and Redis carries its token. */
  lemma OneHolder(config: Config, es: seq<Event>, r: Rid, q: Rid)
    requires Holds(Run(config, es), r) && Holds(Run(config, es), q)
    ensures var s := Run(config, es);
            && !s.threads[r].input.PayIn? && !s.threads[q].input.PayIn?
            && s.threads[r].input.txId in s.store.locks
            && s.store.locks[s.threads[r].input.txId] == s.threads[r].lease.value
            && (s.threads[r].input.txId == s.threads[q].input.txId ==> r == q)
  {
    hide Step;
    LocksAlways(config, es);
  }

  /**
   A holder keeps its lease through any step of anybody, late releases and competing acquires included,
   until it releases the lock itself or time runs past the end of the lease.
   */
  lemma HolderKept(config: Config, es: seq<Event>, e: Event, r: Rid)
    requires Holds(Run(config, es), r)
    requires e.ReleaseE? ==> e.r != r
    requires e.Tick? ==> Run(config, es).store.now + e.delta < Run(config, es).threads[r].lease.value.expires
    ensures var s, s' := Run(config, es), Step(Run(config, es), e);
            && Holds(s', r) && s'.threads[r].input == s.threads[r].input && s'.threads[r].lease == s.threads[r].lease
            && !s.threads[r].input.PayIn? && s.threads[r].input.txId in s'.store.locks
            && s'.store.locks[s.threads[r].input.txId] == s.threads[r].lease.value
  {
    LocksAlways(config, es);
    var s := Run(config, es);
    LocksStep(s, e);
    hide Act;
    if Moves(s, e) {
      InputKept(s.store, s.threads[e.r], e);
      if !e.AcquireE? && !e.ReleaseE? {
        LocksFixed(s.store, s.threads[e.r], e);
      }
    }
  }

  // ----- whoever is kept out is kept out by a holder -----

  predicate HoldsOn(s: State, r: Rid, t: Id) {
    Holds(s, r) && !s.threads[r].input.PayIn? && s.threads[r].input.txId == t
  }

  ghost predicate SomebodyHolds(s: State, t: Id) {
    exists r :: HoldsOn(s, r, t)
  }

  /** No unexpired entry in Redis is left over: a request holds it. */
  ghost predicate EntriesHeld(s: State) {
    forall t :: Live(s.store.locks, t, s.store.now) ==> SomebodyHolds(s, t)
  }

  /** Only its own release, or time, ends a request's lease. */
  lemma LeaseKept(s: State, e: Event, r: Rid)
    requires LocksOk(s) && r in s.threads && s.threads[r].lease.Some? && !(Moves(s, e) && e.ReleaseE? && e.r == r)
    ensures r in Step(s, e).threads && Step(s, e).threads[r].lease == s.threads[r].lease
    ensures Step(s, e).threads[r].input == s.threads[r].input
  {
    assert LeaseOk(s.store, s.threads[r]);
    hide Act;
    if Moves(s, e) {
      InputKept(s.store, s.threads[e.r], e);
      if !e.AcquireE? && !e.ReleaseE? {
        LocksFixed(s.store, s.threads[e.r], e);
      }
    }
  }

  lemma LockerEntries(g: Store, th: Thread, e: Event)
    requires Ready(g, th, e) && (e.AcquireE? || e.ReleaseE?) && LeaseOk(g, th)
    ensures var after := Act(g, th, e);
            forall t :: Live(after.store.locks, t, g.now) ==>
              || (t == th.input.txId && after.th.lease == Some(after.store.locks[t]))
              || (Live(g.locks, t, g.now) && after.store.locks[t] == g.locks[t]
                  && !(t == th.input.txId && th.lease == Some(g.locks[t])))
  {
  }

  lemma EntriesStep(s: State, e: Event)
    requires LocksOk(s) && EntriesHeld(s)
    ensures EntriesHeld(Step(s, e))
  {
    hide Act, LeaseOk;
    var s' := Step(s, e);
    forall t | Live(s'.store.locks, t, s'.store.now) ensures SomebodyHolds(s', t) {
      EntryStep(s, e, t);
    }
  }

  lemma EntryStep(s: State, e: Event, t: Id)
    requires LocksOk(s) && EntriesHeld(s) && Live(Step(s, e).store.locks, t, Step(s, e).store.now)
    ensures SomebodyHolds(Step(s, e), t)
  {
    hide Act;
    var s' := Step(s, e);
    if Moves(s, e) {
      InputKept(s.store, s.threads[e.r], e);
      if e.AcquireE? || e.ReleaseE? {
        LockerEntries(s.store, s.threads[e.r], e);
      } else {
        LocksFixed(s.store, s.threads[e.r], e);
      }
    }
    if Moves(s, e) && (e.AcquireE? || e.ReleaseE?) && t == s.threads[e.r].input.txId
       && s'.threads[e.r].lease == Some(s'.store.locks[t]) {
      assert HoldsOn(s', e.r, t);
    } else {
      assert Live(s.store.locks, t, s.store.now) && s'.store.locks[t] == s.store.locks[t];
      var r :| HoldsOn(s, r, t);
      assert LeaseOk(s.store, s.threads[r]) && s.threads[r].lease == Some(s.store.locks[t]);
      LeaseKept(s, e, r);
      assert HoldsOn(s', r, t);
    }
  }

  lemma {:induction false} EntriesAlways(config: Config, es: seq<Event>)
    ensures EntriesHeld(Run(config, es))
  {
    if es != [] {
      hide Step;
      EntriesAlways(config, es[..|es| - 1]);
      LocksAlways(config, es[..|es| - 1]);
      EntriesStep(Run(config, es[..|es| - 1]), es[|es| - 1]);
    }
  }

  lemma AcquireOutcome(s: State, r: Rid, token: Id)
    requires Moves(s, AcquireE(r, token, NoFault))
    ensures r in Step(s, AcquireE(r, token, NoFault)).threads
    ensures Step(s, AcquireE(r, token, NoFault)).store
            == s.store.(used := s.store.used + {token},
                        locks := Acquired(s.store.locks, s.threads[r].input.txId, Lease(token, s.store.now + 5),
                                          s.store.now))
    ensures var th, t := Step(s, AcquireE(r, token, NoFault)).threads[r], s.threads[r].input.txId;
            if Live(s.store.locks, t, s.store.now)
            then th == s.threads[r].(pc := Done(Err(if s.store.config.nilIsError then RedisNil else DuplicateRequest)),
                                     lease := None)
            else th == s.threads[r].(pc := Reading, lease := Some(Lease(token, s.store.now + 5)))
  {
  }

  /** In every run a request that asks gets the lock if and only if no request holds an unexpired lease on it. */
  lemma AcquireIffFree(config: Config, es: seq<Event>, r: Rid, token: Id)
    requires Moves(Run(config, es), AcquireE(r, token, NoFault))
    ensures var s, th := Run(config, es), Run(config, es + [AcquireE(r, token, NoFault)]).threads[r];
            && (th.pc == Reading <==> !SomebodyHolds(s, s.threads[r].input.txId))
            && (th.pc != Reading ==>
                  th.pc == Done(Err(if s.store.config.nilIsError then RedisNil else DuplicateRequest)) && th.lease.None?)
  {
    var s, e := Run(config, es), AcquireE(r, token, NoFault);
    hide Step;
    assert (es + [e])[..|es|] == es;
    AcquireOutcome(s, r, token);
    EntriesAlways(config, es);
    var t := s.threads[r].input.txId;
    if q :| HoldsOn(s, q, t) {
      OneHolder(config, es, q, q);
    }
  }

  /**
   A lease lasts exactly five seconds: whatever anybody does in the meantime, as long as its holder does not release
   it the holder holds it, and Redis carries its token, until the clock has moved by five seconds, and no longer.
   */
  lemma {:induction false} LeaseLasts(config: Config, es: seq<Event>, r: Rid, token: Id, later: seq<Event>)
    requires Moves(Run(config, es), AcquireE(r, token, NoFault))
    requires !SomebodyHolds(Run(config, es), Run(config, es).threads[r].input.txId)
    requires forall i :: 0 <= i < |later| ==> !(later[i].ReleaseE? && later[i].r == r)
    ensures var s, s' := Run(config, es), Run(config, es + [AcquireE(r, token, NoFault)] + later);
            && r in s'.threads && s'.threads[r].input == s.threads[r].input
            && s'.threads[r].lease == Some(Lease(token, s.store.now + 5))
            && (HoldsOn(s', r, s.threads[r].input.txId) <==> s'.store.now < s.store.now + 5)
            && (s'.store.now < s.store.now + 5 ==>
                  s.threads[r].input.txId in s'.store.locks
                  && s'.store.locks[s.threads[r].input.txId] == Lease(token, s.store.now + 5))
  {
    hide Step;
    var start := es + [AcquireE(r, token, NoFault)];
    if later == [] {
      assert start + later == start && start[..|es|] == es;
      AcquireOutcome(Run(config, es), r, token);
      EntriesAlways(config, es);
    } else {
      var last := |later| - 1;
      LeaseLasts(config, es, r, token, later[..last]);
      assert (start + later)[..|start + later| - 1] == start + later[..last];
      LocksAlways(config, start + later[..last]);
      LeaseKept(Run(config, start + later[..last]), later[last], r);
    }
    LocksAlways(config, start + later);
    assert LeaseOk(Run(config, start + later).store, Run(config, start + later).threads[r]);
  }
}
