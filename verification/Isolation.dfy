/** Requests made under the wrong merchant change nothing but who gets the lock. */
module Isolation {
  import opened Domain
  import opened TransactionTable
  import opened LeaseLock
  import opened Protocol
  import opened Safety
  import opened Locking

  /** A capture, void or refund of a transaction that its merchant does not own, or that does not exist. */
  predicate Foreign(rows: Rows, input: Input) {
    !input.PayIn? && (input.txId in rows ==> rows[input.txId].merchant != input.merchant)
  }

  /** The strangers among the requests are foreign to the table, and never got past reading it. */
  ghost predicate Kept(strangers: set<Rid>, s: State) {
    forall r :: r in strangers && r in s.threads ==>
      var th := s.threads[r];
      && Foreign(s.store.rows, th.input) && th.saving.None?
      && (th.pc.Lookup? || th.pc.Locking? || th.pc.Reading? || th.pc.Releasing? || th.pc.Done?)
  }

  predicate HoldsFor(th: Thread, t: Id, lease: Lease) {
    !th.input.PayIn? && th.input.txId == t && th.lease == Some(lease)
  }

  /** The lease Redis carries for the transaction belongs to a stranger. */
  ghost predicate Blocked(strangers: set<Rid>, s: State, t: Id) {
    Live(s.store.locks, t, s.store.now)
    && exists r :: r in strangers && r in s.threads && HoldsFor(s.threads[r], t, s.store.locks[t])
  }

  /** Two requests that differ at most in which error a refused lock gave them. */
  predicate SameBut(th: Thread, th': Thread) {
    || th' == th
    || ((th.pc == Done(Err(DuplicateRequest)) || th.pc == Done(Err(RedisNil))) && th.saving.None?
        && th' == th.(pc := Done(Err(LockStore))))
  }

  /** The same live leases but for the strangers'. */
  ghost predicate SameLocks(strangers: set<Rid>, s: State, q: State) {
    && (forall t :: Live(q.store.locks, t, q.store.now) <==>
          Live(s.store.locks, t, s.store.now) && !Blocked(strangers, s, t))
    && (forall t :: Live(q.store.locks, t, q.store.now) ==> q.store.locks[t] == s.store.locks[t])
  }

  /** The same system with the strangers, their leases and their UUIDs gone. */
  ghost predicate Without(strangers: set<Rid>, s: State, q: State) {
    && q.store == s.store.(used := q.store.used, locks := q.store.locks) && q.store.used <= s.store.used
    && q.threads.Keys == s.threads.Keys - strangers
    && (forall r :: r in q.threads ==> SameBut(s.threads[r], q.threads[r]))
    && SameLocks(strangers, s, q)
  }

  /** Events that do something in the given state. */
  predicate Happens(s: State, e: Event) {
    e.Tick? || (e.BeginE? && e.r !in s.threads) || Moves(s, e)
  }

  /** A lock that only a stranger kept from being taken is refused by a failing Redis instead. */
  function Replayed(s: State, q: State, e: Event): Event {
    if e.AcquireE? && Moves(s, e)
       && Live(s.store.locks, s.threads[e.r].input.txId, s.store.now)
       && !Live(q.store.locks, s.threads[e.r].input.txId, q.store.now)
    then AcquireE(e.r, e.token, NotApplied) else e
  }

  /** The run without the strangers' events. */
  function Erased(config: Config, strangers: set<Rid>, es: seq<Event>): seq<Event> {
    if es == [] then []
    else
      var before, last := es[..|es| - 1], es[|es| - 1];
      var kept := Erased(config, strangers, before);
      if !Happens(Run(config, before), last) || (!last.Tick? && last.r in strangers) then kept
      else kept + [Replayed(Run(config, before), Run(config, kept), last)]
  }

  // ----- a stranger's step -----

  lemma StrangerAct(g: Store, th: Thread, e: Event)
    requires Ready(g, th, e) && Foreign(g.rows, th.input) && th.saving.None?
    requires th.pc.Lookup? || th.pc.Locking? || th.pc.Reading? || th.pc.Releasing? || th.pc.Done?
    ensures var after := Act(g, th, e);
            && after.store == g.(used := after.store.used, locks := after.store.locks)
            && after.th.input == th.input && after.th.saving.None?
            && (after.th.pc.Lookup? || after.th.pc.Locking? || after.th.pc.Reading? || after.th.pc.Releasing? || after.th.pc.Done?)
            && (!e.AcquireE? && !e.ReleaseE? ==> after.store.locks == g.locks && after.th.lease == th.lease)
  {
  }

  // ----- locks -----

  lemma AcquireLocks(g: Store, th: Thread, e: Event)
    requires Ready(g, th, e) && e.AcquireE?
    ensures var after, t := Act(g, th, e), th.input.txId;
            var lease := Lease(e.token, g.now + LOCK_TTL);
            && after.store == g.(used := g.used + {e.token}, locks := after.store.locks)
            && after.store.locks == (if e.fault == NotApplied || Live(g.locks, t, g.now) then g.locks else g.locks[t := lease])
            && (if e.fault == NotApplied then after.th == th.(pc := Done(Err(LockStore)))
                else if Live(g.locks, t, g.now) then
                  after.th == th.(pc := Done(Err(if e.fault == AckLost then LockStore else HeldError(g.config))), lease := None)
                else after.th == th.(pc := if e.fault == AckLost then Done(Err(LockStore)) else Reading, lease := Some(lease)))
  {
  }

  lemma ReleaseLocks(g: Store, th: Thread, e: Event)
    requires Ready(g, th, e) && e.ReleaseE?
    ensures var after := Act(g, th, e);
            && after.store == g.(locks := after.store.locks)
            && (if e.applied && th.lease.Some? then
                  after.store.locks == Released(g.locks, th.input.txId, th.lease.value.token, g.now)
                  && after.th == th.(pc := Done(th.pc.reply), lease := None)
                else after.store.locks == g.locks && after.th == th.(pc := Done(th.pc.reply)))
  {
  }

  /** Whether a stranger blocks a transaction depends on its lock entry and on the strangers' leases on it. */
  lemma BlockedSame(strangers: set<Rid>, s: State, s': State, t: Id)
    requires Live(s'.store.locks, t, s'.store.now) ==>
               Live(s.store.locks, t, s.store.now) && s'.store.locks[t] == s.store.locks[t]
    requires forall r :: r in strangers ==> (r in s.threads <==> r in s'.threads)
    requires forall r :: r in strangers && r in s.threads && Live(s'.store.locks, t, s'.store.now) ==>
               (HoldsFor(s'.threads[r], t, s.store.locks[t]) <==> HoldsFor(s.threads[r], t, s.store.locks[t]))
    ensures Live(s'.store.locks, t, s'.store.now) ==> (Blocked(strangers, s', t) <==> Blocked(strangers, s, t))
  {
    if Live(s'.store.locks, t, s'.store.now) {
      if Blocked(strangers, s, t) {
        var r :| r in strangers && r in s.threads && HoldsFor(s.threads[r], t, s.store.locks[t]);
        assert HoldsFor(s'.threads[r], t, s'.store.locks[t]);
      }
      if Blocked(strangers, s', t) {
        var r :| r in strangers && r in s'.threads && HoldsFor(s'.threads[r], t, s'.store.locks[t]);
        assert HoldsFor(s.threads[r], t, s.store.locks[t]);
      }
    }
  }

  lemma StrangerAcquire(strangers: set<Rid>, s: State, q: State, e: Event)
    requires SameLocks(strangers, s, q) && LocksOk(s) && Moves(s, e) && e.r in strangers && e.AcquireE?
    requires q.store.now == s.store.now
    ensures SameLocks(strangers, Step(s, e), q)
  {
    hide Act;
    var th, s', u := s.threads[e.r], Step(s, e), s.threads[e.r].input.txId;
    AcquireLocks(s.store, th, e);
    assert LeaseOk(s.store, th) && th.lease.None?;
    if e.fault != NotApplied && !Live(s.store.locks, u, s.store.now) {
      assert HoldsFor(s'.threads[e.r], u, s'.store.locks[u]);
      assert Blocked(strangers, s', u);
    }
    forall t | t != u || e.fault == NotApplied || Live(s.store.locks, u, s.store.now)
      ensures Live(s'.store.locks, t, s'.store.now) ==> (Blocked(strangers, s', t) <==> Blocked(strangers, s, t))
    {
      BlockedSame(strangers, s, s', t);
    }
  }

  lemma StrangerRelease(strangers: set<Rid>, s: State, q: State, e: Event)
    requires SameLocks(strangers, s, q) && LocksOk(s) && Moves(s, e) && e.r in strangers && e.ReleaseE?
    requires q.store.now == s.store.now
    ensures SameLocks(strangers, Step(s, e), q)
  {
    hide Act;
    var th, s', u := s.threads[e.r], Step(s, e), s.threads[e.r].input.txId;
    ReleaseLocks(s.store, th, e);
    assert LeaseOk(s.store, th);
    if Live(s.store.locks, u, s.store.now) && th.lease.Some? && s.store.locks[u].token == th.lease.value.token {
      assert HoldsFor(th, u, s.store.locks[u]);
      assert Blocked(strangers, s, u);
    }
    forall t: Id
      ensures Live(s'.store.locks, t, s'.store.now) ==> (Blocked(strangers, s', t) <==> Blocked(strangers, s, t))
    {
      BlockedSame(strangers, s, s', t);
    }
  }

  lemma StrangerOther(strangers: set<Rid>, s: State, q: State, e: Event)
    requires SameLocks(strangers, s, q) && Moves(s, e) && !e.AcquireE? && !e.ReleaseE? && q.store.now == s.store.now
    ensures SameLocks(strangers, Step(s, e), q)
  {
    hide Act;
    var s' := Step(s, e);
    LocksFixed(s.store, s.threads[e.r], e);
    InputKept(s.store, s.threads[e.r], e);
    forall t: Id
      ensures Live(s'.store.locks, t, s'.store.now) ==> (Blocked(strangers, s', t) <==> Blocked(strangers, s, t))
    {
      BlockedSame(strangers, s, s', t);
    }
  }

  /** A stranger's step is not seen by the system without strangers. */
  lemma StrangerStep(strangers: set<Rid>, s: State, q: State, e: Event)
    requires Without(strangers, s, q) && Kept(strangers, s) && LocksOk(s) && Moves(s, e) && e.r in strangers
    ensures Without(strangers, Step(s, e), q)
  {
    hide Act, LocksOk, Blocked, Live;
    StrangerAct(s.store, s.threads[e.r], e);
    UsedGrows(s.store, s.threads[e.r], e);
    InputKept(s.store, s.threads[e.r], e);
    assert SameLocks(strangers, s, q);
    if e.AcquireE? {
      StrangerAcquire(strangers, s, q, e);
    } else if e.ReleaseE? {
      StrangerRelease(strangers, s, q, e);
    } else {
      StrangerOther(strangers, s, q, e);
    }
  }

  // ----- anybody else's step -----

  /** The same store with fewer UUIDs used and other locks. */
  ghost predicate Fewer(g: Store, g': Store) {
    g' == g.(used := g'.used, locks := g'.locks) && g'.used <= g.used
  }

  lemma WriterSame(g: Store, g': Store, th: Thread, e: Event)
    requires Ready(g, th, e) && e.WriteE? && Fewer(g, g')
    ensures Ready(g', th, e) && Act(g', th, e).th == Act(g, th, e).th
    ensures Fewer(Act(g, th, e).store, Act(g', th, e).store) && Act(g', th, e).store.locks == g'.locks
  {
    hide CallStep, InsertStep, RecordStep, AcquireStep, ReadStep, LookupStep, ReleaseStep, SaveStep, CrashStep, Patched;
  }

  lemma CallerSame(g: Store, g': Store, th: Thread, e: Event)
    requires Ready(g, th, e) && e.CallE? && Fewer(g, g')
    ensures Ready(g', th, e) && Act(g', th, e).th == Act(g, th, e).th
    ensures Fewer(Act(g, th, e).store, Act(g', th, e).store) && Act(g', th, e).store.locks == g'.locks
  {
    hide WriteStep, InsertStep, RecordStep, AcquireStep, ReadStep, LookupStep, ReleaseStep, SaveStep, CrashStep, PatchFor;
  }

  lemma RestSame(g: Store, g': Store, th: Thread, e: Event)
    requires Ready(g, th, e) && !e.AcquireE? && !e.ReleaseE? && !e.WriteE? && !e.CallE?
    requires Fewer(g, g')
    ensures Ready(g', th, e) && Act(g', th, e).th == Act(g, th, e).th
    ensures Fewer(Act(g, th, e).store, Act(g', th, e).store) && Act(g', th, e).store.locks == g'.locks
  {
  }

  /** A step that touches no lock runs the same there. */
  lemma ActSame(g: Store, g': Store, th: Thread, e: Event)
    requires Ready(g, th, e) && !e.AcquireE? && !e.ReleaseE? && Fewer(g, g')
    ensures Ready(g', th, e) && Act(g', th, e).th == Act(g, th, e).th
    ensures Fewer(Act(g, th, e).store, Act(g', th, e).store) && Act(g', th, e).store.locks == g'.locks
  {
    hide Act, Fewer;
    if e.WriteE? {
      WriterSame(g, g', th, e);
    } else if e.CallE? {
      CallerSame(g, g', th, e);
    } else {
      RestSame(g, g', th, e);
    }
  }

  lemma OtherSame(strangers: set<Rid>, s: State, q: State, e: Event)
    requires Without(strangers, s, q) && LocksOk(s) && Moves(s, e) && e.r !in strangers && !e.AcquireE? && !e.ReleaseE?
    ensures Moves(q, e) && Without(strangers, Step(s, e), Step(q, e))
  {
    hide Act, LocksOk, Blocked, Live;
    MoverSame(strangers, s, q, e);
    ActSame(s.store, q.store, s.threads[e.r], e);
    LocksFixed(s.store, s.threads[e.r], e);
    InputKept(s.store, s.threads[e.r], e);
    OtherLocks(strangers, s, q, e);
  }

  /** A request that can still move is the same in both systems. */
  lemma MoverSame(strangers: set<Rid>, s: State, q: State, e: Event)
    requires Without(strangers, s, q) && Moves(s, e) && e.r !in strangers
    ensures e.r in q.threads && q.threads[e.r] == s.threads[e.r]
  {
    hide Act, Blocked, Live;
    assert e.r in q.threads.Keys;
  }

  lemma OtherLocks(strangers: set<Rid>, s: State, q: State, e: Event)
    requires SameLocks(strangers, s, q) && Moves(s, e) && Moves(q, e) && e.r !in strangers && !e.AcquireE? && !e.ReleaseE?
    requires Step(q, e).store.locks == q.store.locks && q.store.now == s.store.now
    ensures SameLocks(strangers, Step(s, e), Step(q, e))
  {
    hide Act;
    var s' := Step(s, e);
    LocksFixed(s.store, s.threads[e.r], e);
    InputKept(s.store, s.threads[e.r], e);
    InputKept(q.store, q.threads[e.r], e);
    forall t: Id
      ensures Live(s'.store.locks, t, s'.store.now) ==> (Blocked(strangers, s', t) <==> Blocked(strangers, s, t))
    {
      BlockedSame(strangers, s, s', t);
    }
  }

  /** Only a finished request has a response to save. */
  predicate Tidy(th: Thread) {
    th.saving.Some? ==> th.pc.Done? || th.pc.Releasing?
  }

  lemma TidyAct(g: Store, th: Thread, e: Event)
    requires Ready(g, th, e) && Tidy(th)
    ensures Tidy(Act(g, th, e).th)
  {
  }

  lemma AcquireLocksSame(strangers: set<Rid>, s: State, q: State, e: Event)
    requires SameLocks(strangers, s, q) && LocksOk(s) && Moves(s, e) && e.r !in strangers && e.AcquireE?
    requires e.r in q.threads && q.threads[e.r] == s.threads[e.r]
    requires q.store.now == s.store.now && q.store.used <= s.store.used
    ensures SameLocks(strangers, Step(s, e), Step(q, Replayed(s, q, e)))
  {
    hide Act;
    var th, s', u := s.threads[e.r], Step(s, e), s.threads[e.r].input.txId;
    AcquireLocks(s.store, th, e);
    AcquireLocks(q.store, th, Replayed(s, q, e));
    forall x | x in strangers && x in s.threads && s.threads[x].lease.Some?
      ensures s.threads[x].lease.value.token != e.token
    {
      assert LeaseOk(s.store, s.threads[x]);
    }
    forall t | t != u || s'.store.locks == s.store.locks
      ensures Live(s'.store.locks, t, s'.store.now) ==> (Blocked(strangers, s', t) <==> Blocked(strangers, s, t))
    {
      BlockedSame(strangers, s, s', t);
    }
    var q' := Step(q, Replayed(s, q, e));
    if s'.store.locks != s.store.locks {
      assert !Live(q.store.locks, u, q.store.now);
      assert !Blocked(strangers, s', u);
    }
    forall t: Id
      ensures Live(q'.store.locks, t, q'.store.now) <==> Live(s'.store.locks, t, s'.store.now) && !Blocked(strangers, s', t)
      ensures Live(q'.store.locks, t, q'.store.now) ==> q'.store.locks[t] == s'.store.locks[t]
    {
      assert Live(q.store.locks, t, q.store.now) <==> Live(s.store.locks, t, s.store.now) && !Blocked(strangers, s, t);
    }
  }

  lemma LockingUnleased(s: State, r: Rid)
    requires LocksOk(s) && r in s.threads && s.threads[r].pc.Locking?
    ensures s.threads[r].lease.None?
  {
    assert LeaseOk(s.store, s.threads[r]);
  }

  /** Taking the lock: free in both, held in both, or kept from us only by a stranger. */
  lemma AcquireSame(strangers: set<Rid>, s: State, q: State, e: Event)
    requires Without(strangers, s, q) && LocksOk(s) && Moves(s, e) && e.r !in strangers && e.AcquireE?
    requires Tidy(s.threads[e.r])
    ensures Without(strangers, Step(s, e), Step(q, Replayed(s, q, e)))
  {
    hide Act, Blocked, Live, LocksOk, Acquired;
    var e', th := Replayed(s, q, e), s.threads[e.r];
    MoverSame(strangers, s, q, e);
    LockingUnleased(s, e.r);
    AcquireLocks(s.store, th, e);
    AcquireLocks(q.store, th, e');
    AcquireLocksSame(strangers, s, q, e);
    assert Live(q.store.locks, th.input.txId, q.store.now) ==> Live(s.store.locks, th.input.txId, s.store.now);
    assert SameBut(Act(s.store, th, e).th, Act(q.store, th, e').th);
  }

  /** Releasing the lock: a live lease of ours is live in both, and nobody else's token is ours. */
  lemma ReleaseSame(strangers: set<Rid>, s: State, q: State, e: Event)
    requires Without(strangers, s, q) && LocksOk(s) && Moves(s, e) && e.r !in strangers && e.ReleaseE?
    ensures Without(strangers, Step(s, e), Step(q, e))
  {
    hide Act;
    var th := s.threads[e.r];
    MoverSame(strangers, s, q, e);
    ReleaseLocks(s.store, th, e);
    ReleaseLocks(q.store, th, e);
    ReleaseLocksSame(strangers, s, q, e);
    hide Blocked, Live, LocksOk;
  }

  lemma ReleaseLocksSame(strangers: set<Rid>, s: State, q: State, e: Event)
    requires SameLocks(strangers, s, q) && LocksOk(s) && Moves(s, e) && e.r !in strangers && e.ReleaseE?
    requires e.r in q.threads && q.threads[e.r] == s.threads[e.r] && q.store.now == s.store.now
    ensures SameLocks(strangers, Step(s, e), Step(q, e))
  {
    hide Act;
    var th, s', u := s.threads[e.r], Step(s, e), s.threads[e.r].input.txId;
    ReleaseLocks(s.store, th, e);
    ReleaseLocks(q.store, th, e);
    assert LeaseOk(s.store, th);
    if th.lease.Some? && Live(s.store.locks, u, s.store.now) && s.store.locks[u].token == th.lease.value.token {
      assert !Blocked(strangers, s, u);
    }
    forall t: Id
      ensures Live(s'.store.locks, t, s'.store.now) ==> (Blocked(strangers, s', t) <==> Blocked(strangers, s, t))
    {
      BlockedSame(strangers, s, s', t);
    }
    var q' := Step(q, e);
    forall t: Id
      ensures Live(q'.store.locks, t, q'.store.now) <==> Live(s'.store.locks, t, s'.store.now) && !Blocked(strangers, s', t)
      ensures Live(q'.store.locks, t, q'.store.now) ==> q'.store.locks[t] == s'.store.locks[t]
    {
      assert Live(q.store.locks, t, q.store.now) <==> Live(s.store.locks, t, s.store.now) && !Blocked(strangers, s, t);
    }
  }

  lemma TickSame(strangers: set<Rid>, s: State, q: State, e: Event)
    requires Without(strangers, s, q) && e.Tick?
    ensures Without(strangers, Step(s, e), Step(q, e))
  {
    var s' := Step(s, e);
    forall t: Id
      ensures Live(s'.store.locks, t, s'.store.now) ==> (Blocked(strangers, s', t) <==> Blocked(strangers, s, t))
    {
      BlockedSame(strangers, s, s', t);
    }
    var q' := Step(q, e);
    forall t: Id
      ensures Live(q'.store.locks, t, q'.store.now) <==> Live(s'.store.locks, t, s'.store.now) && !Blocked(strangers, s', t)
      ensures Live(q'.store.locks, t, q'.store.now) ==> q'.store.locks[t] == s'.store.locks[t]
    {
      assert Live(q.store.locks, t, q.store.now) <==> Live(s.store.locks, t, s.store.now) && !Blocked(strangers, s, t);
    }
  }

  lemma BeginSame(strangers: set<Rid>, s: State, q: State, e: Event)
    requires Without(strangers, s, q) && e.BeginE? && e.r !in s.threads
    ensures Without(strangers, Step(s, e), if e.r in strangers then q else Step(q, e))
  {
    var s' := Step(s, e);
    assert e.r !in q.threads.Keys;
    forall t: Id ensures Blocked(strangers, s', t) <==> Blocked(strangers, s, t) {
      if Blocked(strangers, s, t) {
        var x :| x in strangers && x in s.threads && HoldsFor(s.threads[x], t, s.store.locks[t]);
        assert HoldsFor(s'.threads[x], t, s'.store.locks[t]);
      }
    }
  }

  // ----- whole runs -----

  ghost predicate AllForeign(strangers: set<Rid>, rows: Rows, threads: map<Rid, Thread>) {
    forall r :: r in strangers && r in threads ==> Foreign(rows, threads[r].input)
  }

  /** What is foreign to a later table was foreign before: rows keep their merchants and requests their inputs. */
  lemma ForeignBefore(strangers: set<Rid>, s: State, e: Event)
    requires Base(s) && AllForeign(strangers, Step(s, e).store.rows, Step(s, e).threads)
    ensures AllForeign(strangers, s.store.rows, s.threads)
  {
    hide Act;
    BaseStep(s, e);
    if Moves(s, e) {
      InputKept(s.store, s.threads[e.r], e);
    }
    forall r | r in strangers && r in s.threads ensures Foreign(s.store.rows, s.threads[r].input) {
      assert r in Step(s, e).threads && Step(s, e).threads[r].input == s.threads[r].input;
    }
  }

  lemma KeptStep(strangers: set<Rid>, s: State, e: Event)
    requires Kept(strangers, s) && AllForeign(strangers, Step(s, e).store.rows, Step(s, e).threads)
    ensures Kept(strangers, Step(s, e))
  {
    hide Act;
    if Moves(s, e) && e.r in strangers {
      StrangerAct(s.store, s.threads[e.r], e);
    }
  }

  ghost predicate AllTidy(s: State) {
    forall r :: r in s.threads ==> Tidy(s.threads[r])
  }

  lemma TidyStep(s: State, e: Event)
    requires AllTidy(s)
    ensures AllTidy(Step(s, e))
  {
    hide Act;
    if Moves(s, e) {
      TidyAct(s.store, s.threads[e.r], e);
    }
  }

  lemma WithoutStep(strangers: set<Rid>, s: State, q: State, e: Event)
    requires Without(strangers, s, q) && Kept(strangers, s) && LocksOk(s) && AllTidy(s)
    ensures Without(strangers, Step(s, e),
                    if !Happens(s, e) || (!e.Tick? && e.r in strangers) then q else Step(q, Replayed(s, q, e)))
  {
    hide Act, Without, Kept, LocksOk;
    if Moves(s, e) {
      if e.r in strangers {
        StrangerStep(strangers, s, q, e);
      } else if e.AcquireE? {
        AcquireSame(strangers, s, q, e);
      } else if e.ReleaseE? {
        ReleaseSame(strangers, s, q, e);
      } else {
        OtherSame(strangers, s, q, e);
      }
    } else if e.Tick? {
      TickSame(strangers, s, q, e);
    } else if e.BeginE? && e.r !in s.threads {
      BeginSame(strangers, s, q, e);
    }
  }

  /** How the erased run grows with the run. */
  lemma ErasedStep(config: Config, es: seq<Event>, last: Event, strangers: set<Rid>)
    ensures var s, kept, longer := Run(config, es), Erased(config, strangers, es), Erased(config, strangers, es + [last]);
            if !Happens(s, last) || (!last.Tick? && last.r in strangers) then longer == kept
            else longer == kept + [Replayed(s, Run(config, kept), last)]
                 && Run(config, longer) == Step(Run(config, kept), Replayed(s, Run(config, kept), last))
  {
    hide Step, Happens, Replayed;
    assert (es + [last])[..|es|] == es;
    var kept := Erased(config, strangers, es);
    var e := Replayed(Run(config, es), Run(config, kept), last);
    assert (kept + [e])[..|kept|] == kept;
  }

  lemma RunStep(config: Config, es: seq<Event>, last: Event)
    ensures Run(config, es + [last]) == Step(Run(config, es), last)
  {
    hide Step;
    assert (es + [last])[..|es|] == es;
  }

  ghost predicate NoneOf(strangers: set<Rid>, es: seq<Event>) {
    forall i :: 0 <= i < |es| ==> es[i].Tick? || es[i].r !in strangers
  }

  lemma NoneOfStep(strangers: set<Rid>, s: State, q: State, es: seq<Event>, last: Event)
    requires NoneOf(strangers, es) && (last.Tick? || last.r !in strangers)
    ensures NoneOf(strangers, es + [Replayed(s, q, last)])
  {
    hide Moves, Step;
  }

  lemma ErasedGrows(config: Config, es: seq<Event>, last: Event, strangers: set<Rid>)
    requires AllForeign(strangers, Run(config, es + [last]).store.rows, Run(config, es + [last]).threads)
    requires Kept(strangers, Run(config, es)) && AllTidy(Run(config, es))
    requires Without(strangers, Run(config, es), Run(config, Erased(config, strangers, es)))
    requires NoneOf(strangers, Erased(config, strangers, es))
    ensures Kept(strangers, Run(config, es + [last])) && AllTidy(Run(config, es + [last]))
    ensures Without(strangers, Run(config, es + [last]), Run(config, Erased(config, strangers, es + [last])))
    ensures NoneOf(strangers, Erased(config, strangers, es + [last]))
  {
    hide Step, Without, Kept, AllForeign, AllTidy, NoneOf, Erased, Run, Happens, Replayed, LocksOk;
    var s, kept := Run(config, es), Erased(config, strangers, es);
    LocksAlways(config, es);
    RunStep(config, es, last);
    ErasedStep(config, es, last, strangers);
    KeptStep(strangers, s, last);
    TidyStep(s, last);
    WithoutStep(strangers, s, Run(config, kept), last);
    if Happens(s, last) && (last.Tick? || last.r !in strangers) {
      NoneOfStep(strangers, s, Run(config, kept), kept, last);
    }
  }

  lemma ForeignPrefix(config: Config, es: seq<Event>, last: Event, strangers: set<Rid>)
    requires AllForeign(strangers, Run(config, es + [last]).store.rows, Run(config, es + [last]).threads)
    ensures AllForeign(strangers, Run(config, es).store.rows, Run(config, es).threads)
  {
    hide Step, AllForeign, Run, Base;
    RunStep(config, es, last);
    BaseAlways(config, es);
    ForeignBefore(strangers, Run(config, es), last);
  }

  lemma NothingErased(config: Config, strangers: set<Rid>)
    ensures Run(config, []) == Init(config) && Erased(config, strangers, []) == []
    ensures Kept(strangers, Init(config)) && AllTidy(Init(config)) && Without(strangers, Init(config), Init(config))
    ensures NoneOf(strangers, [])
  {
  }

  /**
   Take any run and any set of requests that are foreign to its final table. Erasing them, and letting Redis refuse
   the locks only they were holding, gives a run with the same rows, refunds, cache, gateway calls and lost writes,
   the same locks but for theirs, and the same answers to everybody else but for the reason a lock was refused.
   */
  lemma {:induction false} StrangersChangeNothing(config: Config, es: seq<Event>, strangers: set<Rid>)
    requires AllForeign(strangers, Run(config, es).store.rows, Run(config, es).threads)
    ensures Kept(strangers, Run(config, es)) && AllTidy(Run(config, es))
    ensures Without(strangers, Run(config, es), Run(config, Erased(config, strangers, es)))
    ensures NoneOf(strangers, Erased(config, strangers, es))
  {
    hide Step, Without, Kept, AllForeign, AllTidy, NoneOf, Erased, Run;
    if es == [] {
      NothingErased(config, strangers);
    } else {
      var before, last := es[..|es| - 1], es[|es| - 1];
      assert es == before + [last];
      ForeignPrefix(config, before, last, strangers);
      StrangersChangeNothing(config, before, strangers);
      ErasedGrows(config, before, last, strangers);
    }
  }
}
