/** The response cache: what a cached response says, that it never changes, and what a replay answers. */
module Caching {
  import opened Domain
  import opened IdempotencyTable
  import opened Protocol
  import opened Promises
  import opened Safety
  import opened Lifecycle

  /** The status a row took when it left pending, read off the row as it is now. */
  function First(row: Transaction): Status {
    if row.gatewayRef.None? then Failed else if row.kind == AuthorizeCapture then Authorized else Captured
  }

  predicate AsksRefund(input: Input, key: Id, merchant: Id) {
    input.RefundIn? && input.idemKey == key && input.merchant == merchant
  }

  ghost predicate RefundAsked(threads: map<Rid, Thread>, key: Id, merchant: Id) {
    exists r :: r in threads && AsksRefund(threads[r].input, key, merchant)
  }

  ghost predicate RefundStored(refunds: seq<RefundRow>, id: Id, txId: Id, merchant: Id) {
    exists i :: 0 <= i < |refunds| && refunds[i].id == id && refunds[i].txId == txId && refunds[i].merchant == merchant
  }

  /** What a request answers along with a response: the gateway-rejected error exactly when that is a failed transaction. */
  function ReplyWith(response: Output): Reply {
    if response.status == Tx(Failed) then Rejected(response) else Ok(response)
  }

  /**
   The request answered the response, and that is true of its own row, or of a refund row of the transaction it
   asked to refund.
   */
  ghost predicate Gave(g: Store, th: Thread, response: Output) {
    && Answered(th) == Some(ReplyWith(response))
    && match response
       case TxOutput(id, status) =>
         th.input.PayIn? && id in g.rows && AsAsked(g.rows[id], th.input)
         && g.rows[id].status != Pending && status == Tx(First(g.rows[id]))
       case RefundOutput(id, status) =>
         th.input.RefundIn? && status == Processing && RefundStored(g.refunds, id, th.input.txId, th.input.merchant)
  }

  predicate Under(config: Config, input: Input, key: Id, merchant: Id) {
    input.merchant == merchant && CacheKey(config, input) == Some(key)
  }

  predicate GaveUnder(s: State, r: Rid, key: Id, merchant: Id, response: Output) {
    && r in s.threads && Under(s.store.config, s.threads[r].input, key, merchant)
    && Answered(s.threads[r]) == Some(ReplyWith(response))
  }

  /** A response cached for a merchant under a key is what some request of that merchant under that key answered. */
  ghost predicate Genuine(s: State, key: Id, merchant: Id, response: Output) {
    exists r :: GaveUnder(s, r, key, merchant, response) && Gave(s.store, s.threads[r], response)
  }

  ghost predicate CacheOk(s: State) {
    && (forall k :: k in s.store.cache ==> Genuine(s, k, s.store.cache[k].merchant, s.store.cache[k].response))
    && (forall r :: r in s.threads && s.threads[r].saving.Some? ==>
          CacheKey(s.store.config, s.threads[r].input) == Some(s.threads[r].saving.value.key)
          && Gave(s.store, s.threads[r], s.threads[r].saving.value.response))
  }

  /** The parts a response depends on only grow, and answers given stay given. */
  ghost predicate Grows(s: State, s': State) {
    && s'.store.config == s.store.config && RowsEvolve(s.store.rows, s'.store.rows) && s.store.refunds <= s'.store.refunds
    && s.store.log <= s'.store.log && s.store.missed <= s'.store.missed
    && forall r :: r in s.threads ==>
         r in s'.threads && s'.threads[r].input == s.threads[r].input
         && (Answered(s.threads[r]).Some? ==> Answered(s'.threads[r]) == Answered(s.threads[r]))
  }

  lemma StoredStays(refunds: seq<RefundRow>, refunds': seq<RefundRow>, id: Id, txId: Id, merchant: Id)
    requires RefundStored(refunds, id, txId, merchant) && refunds <= refunds'
    ensures RefundStored(refunds', id, txId, merchant)
  {
    var i :| 0 <= i < |refunds| && refunds[i].id == id && refunds[i].txId == txId && refunds[i].merchant == merchant;
    assert refunds'[i] == refunds[i];
  }

  lemma StaysGiven(g: Store, g': Store, th: Thread, th': Thread, response: Output)
    requires Gave(g, th, response) && RowsOk(g.rows) && RowsEvolve(g.rows, g'.rows) && g.refunds <= g'.refunds
    requires th'.input == th.input && Answered(th') == Answered(th)
    ensures Gave(g', th', response)
  {
    if response.RefundOutput? {
      StoredStays(g.refunds, g'.refunds, response.id, th.input.txId, th.input.merchant);
    }
  }

  lemma StaysGenuine(s: State, s': State, key: Id, merchant: Id, response: Output)
    requires Genuine(s, key, merchant, response) && Grows(s, s') && RowsOk(s.store.rows)
    ensures Genuine(s', key, merchant, response)
  {
    hide Gave, RowsOk, RowsEvolve;
    var r :| GaveUnder(s, r, key, merchant, response) && Gave(s.store, s.threads[r], response);
    StaysGiven(s.store, s'.store, s.threads[r], s'.threads[r], response);
    assert GaveUnder(s', r, key, merchant, response);
  }

  lemma Growing(g: Store, th: Thread, e: Event)
    requires Ready(g, th, e)
    ensures var after := Act(g, th, e);
            && g.refunds <= after.store.refunds && g.log <= after.store.log && g.missed <= after.store.missed
            && (Answered(th).Some? ==> Answered(after.th) == Answered(th))
  {
  }

  lemma StepGrows(s: State, e: Event)
    requires Base(s)
    ensures Grows(s, Step(s, e))
  {
    hide Act, Answered, Base, RowsEvolve;
    BaseStep(s, e);
    if Moves(s, e) {
      InputKept(s.store, s.threads[e.r], e);
      Growing(s.store, s.threads[e.r], e);
    }
  }

  /** Only a background save writes the cache, once per key; only the two successes hand it something to save. */
  lemma CacheShape(g: Store, th: Thread, e: Event)
    requires Ready(g, th, e) && !e.WriteE? && !e.RecordE?
    ensures var after := Act(g, th, e);
            && (after.th.saving == th.saving || after.th.saving.None?)
            && (after.store.cache == g.cache
                || (th.saving.Some? && th.saving.value.key !in g.cache && exists expires ::
                      after.store.cache
                      == g.cache[th.saving.value.key := CacheRow(th.input.merchant, th.saving.value.response, expires)]))
  {
    if e.SaveE? {
      assert Act(g, th, e).store.cache == g.cache
             || Act(g, th, e).store.cache
                == g.cache[th.saving.value.key := CacheRow(th.input.merchant, th.saving.value.response, g.now + DAY)];
    }
  }

  /** What a success leaves to be saved is its answer, and true. */
  lemma SuccessGiven(g: Store, th: Thread, e: Event)
    requires Ready(g, th, e) && TableOk(g) && PcOk(g.rows, th.input, th.pc) && (e.WriteE? || e.RecordE?)
    ensures var after := Act(g, th, e);
            && after.store.cache == g.cache
            && (after.th.saving == th.saving || after.th.saving.None?
                || (CacheKey(g.config, th.input) == Some(after.th.saving.value.key)
                    && Gave(after.store, after.th, after.th.saving.value.response)))
  {
    if e.WriteE? {
      PatchedRow(th.input, th.pc.tx, th.pc.patch, th.pc.call, th.pc.tx);
    } else {
      assert (g.refunds + [th.pc.row])[|g.refunds|] == th.pc.row;
    }
  }

  lemma CacheStep(s: State, e: Event)
    requires Base(s) && CacheOk(s)
    ensures CacheOk(Step(s, e))
  {
    hide Act, PcOk, Genuine, Gave, RowsOk, KeysUnique, RowsEvolve, CacheKey, ReplyWith;
    var s' := Step(s, e);
    StepGrows(s, e);
    forall k | k in s.store.cache
      ensures Genuine(s', k, s.store.cache[k].merchant, s.store.cache[k].response)
    {
      StaysGenuine(s, s', k, s.store.cache[k].merchant, s.store.cache[k].response);
    }
    forall r | r in s.threads && s.threads[r].saving.Some?
      ensures Gave(s'.store, s'.threads[r], s.threads[r].saving.value.response)
      ensures Genuine(s', s.threads[r].saving.value.key, s.threads[r].input.merchant, s.threads[r].saving.value.response)
    {
      SavingGenuine(s, r);
      StaysGenuine(s, s', s.threads[r].saving.value.key, s.threads[r].input.merchant, s.threads[r].saving.value.response);
      StaysGiven(s.store, s'.store, s.threads[r], s'.threads[r], s.threads[r].saving.value.response);
    }
    if Moves(s, e) {
      InputKept(s.store, s.threads[e.r], e);
      if e.WriteE? || e.RecordE? {
        SuccessGiven(s.store, s.threads[e.r], e);
      } else {
        CacheShape(s.store, s.threads[e.r], e);
      }
    }
  }

  lemma SavingGenuine(s: State, r: Rid)
    requires CacheOk(s) && r in s.threads && s.threads[r].saving.Some?
    ensures Answered(s.threads[r]).Some?
    ensures Genuine(s, s.threads[r].saving.value.key, s.threads[r].input.merchant, s.threads[r].saving.value.response)
  {
    assert GaveUnder(s, r, s.threads[r].saving.value.key, s.threads[r].input.merchant, s.threads[r].saving.value.response);
  }

  lemma {:induction false} CacheAlways(config: Config, es: seq<Event>)
    ensures CacheOk(Run(config, es))
  {
    if es != [] {
      hide Step;
      CacheAlways(config, es[..|es| - 1]);
      BaseAlways(config, es[..|es| - 1]);
      CacheStep(Run(config, es[..|es| - 1]), es[|es| - 1]);
    }
  }

  /** The status a row took first is the second entry of its history, as long as anybody looks. */
  lemma {:induction false} FirstIsHistory(config: Config, es: seq<Event>, t: Id)
    requires t in Run(config, es).store.rows && Run(config, es).store.rows[t].status != Pending
    ensures var h := History(config, es, t); |h| >= 2 && h[0] == Pending && h[1] == First(Run(config, es).store.rows[t])
  {
    hide Step;
    HistoryIsPath(config, es, t);
    LastStep(config, es);
    var before := Run(config, es[..|es| - 1]).store.rows;
    if t in before && before[t].status != Pending {
      FirstIsHistory(config, es[..|es| - 1], t);
    } else {
      if t !in before {
        BornPending(Run(config, es[..|es| - 1]), es[|es| - 1], t);
      }
      HistoryIsPath(config, es[..|es| - 1], t);
    }
  }

  /** A cached response is never replaced, expired or not. */
  lemma {:induction false} CacheKept(config: Config, es: seq<Event>, later: seq<Event>, key: Id)
    requires key in Run(config, es).store.cache
    ensures key in Run(config, es + later).store.cache
    ensures Run(config, es + later).store.cache[key] == Run(config, es).store.cache[key]
  {
    if later == [] {
      assert es + later == es;
    } else {
      var last := |later| - 1;
      CacheKept(config, es, later[..last], key);
      assert (es + later)[..|es + later| - 1] == es + later[..last];
      EntryKept(Run(config, es + later[..last]), later[last], key);
    }
  }

  lemma EntryKept(s: State, e: Event, key: Id)
    requires key in s.store.cache
    ensures key in Step(s, e).store.cache && Step(s, e).store.cache[key] == s.store.cache[key]
  {
  }

  /** A row of the merchant, under a raw key that parses to key, whose first status after pending was the one named. */
  ghost predicate NamesRow(config: Config, es: seq<Event>, key: Id, merchant: Id, out: Output) {
    var rows := Run(config, es).store.rows;
    && out.TxOutput? && out.id in rows && rows[out.id].merchant == merchant
    && config.parse(rows[out.id].key) == Some(key)
    && |History(config, es, out.id)| >= 2 && out.status == Tx(History(config, es, out.id)[1])
  }

  /**
   In every run a cached response is what some request of that merchant under that key answered, with the
   gateway-rejected error beside it exactly when it says failed. A payment's names the row that request inserted,
   with the first status it took; a refund's names a stored refund row of the transaction that request asked to refund.
   */
  lemma CacheAgrees(config: Config, es: seq<Event>, key: Id)
    requires key in Run(config, es).store.cache
    ensures var s := Run(config, es);
            var row := s.store.cache[key];
            && Genuine(s, key, row.merchant, row.response)
            && (row.response.TxOutput? ==> NamesRow(config, es, key, row.merchant, row.response))
  {
    hide Step;
    CacheAlways(config, es);
    ConfigKept(config, es);
    var response := Run(config, es).store.cache[key].response;
    if response.TxOutput? {
      FirstIsHistory(config, es, response.id);
    }
  }

  /**
   An Authorize or Charge that hits the cache answers with the response stored under its key, unless a refund is
   stored there. For a key no Refund of that merchant used, the answer names a row of the merchant as CacheAgrees says.
   */
  lemma ReplayAgrees(config: Config, es: seq<Event>, r: Rid, key: Id)
    requires Moves(Run(config, es), LookupE(r, false)) && Run(config, es).threads[r].input.PayIn?
    requires config.parse(Run(config, es).threads[r].input.key) == Some(key)
    requires var s := Run(config, es); Cached(s.store.cache, key, s.threads[r].input.merchant, s.store.now).Some?
    ensures var s := Run(config, es);
            var answer := Step(s, LookupE(r, false)).threads[r].pc;
            && (s.store.cache[key].response.TxOutput? <==> answer == Done(Replay(s.store.cache[key].response)))
            && (!RefundAsked(s.threads, key, s.threads[r].input.merchant) ==>
                  answer.Done? && answer.reply.Replay?
                  && NamesRow(config, es, key, s.threads[r].input.merchant, answer.reply.out))
  {
    CacheAgrees(config, es, key);
    ConfigKept(config, es);
    var s := Run(config, es);
    var q :| GaveUnder(s, q, key, s.threads[r].input.merchant, s.store.cache[key].response)
             && Gave(s.store, s.threads[q], s.store.cache[key].response);
    assert s.store.cache[key].response.RefundOutput? ==> AsksRefund(s.threads[q].input, key, s.threads[r].input.merchant);
  }

  /** The cache is shared: an Authorize or Charge replaying a refund's response answers a zero id in status processing. */
  lemma ReplayOfRefund(config: Config, es: seq<Event>, r: Rid, key: Id)
    requires Moves(Run(config, es), LookupE(r, false)) && Run(config, es).threads[r].input.PayIn?
    requires config.parse(Run(config, es).threads[r].input.key) == Some(key)
    requires var s := Run(config, es); Cached(s.store.cache, key, s.threads[r].input.merchant, s.store.now).Some?
    ensures var s := Run(config, es);
            s.store.cache[key].response.RefundOutput?
            <==> Step(s, LookupE(r, false)).threads[r].pc == Done(Replay(TxOutput(NIL_ID, Processing)))
  {
    CacheAlways(config, es);
    ConfigKept(config, es);
  }

  /** The request that a Refund's cached answer comes from, and whether that is the asked transaction's refund. */
  ghost predicate RefundedBy(s: State, q: Rid, input: Input, out: Output)
    requires input.RefundIn?
  {
    && GaveUnder(s, q, input.idemKey, input.merchant, out) && s.threads[q].input.RefundIn?
    && RefundStored(s.store.refunds, out.id, s.threads[q].input.txId, input.merchant)
    && (RefundStored(s.store.refunds, out.id, input.txId, input.merchant) <==> s.threads[q].input.txId == input.txId)
  }

  /**
   A Refund replays the refund stored under its key without comparing transactions: the answer is about the
   transaction asked for if and only if the request first answered under that key asked for the same one. A payment
   stored there it answers as a refund with a zero id.
   */
  lemma RefundReplays(config: Config, es: seq<Event>, r: Rid)
    requires Moves(Run(config, es), LookupE(r, false)) && Run(config, es).threads[r].input.RefundIn?
    requires var s, input := Run(config, es), Run(config, es).threads[r].input;
             Cached(s.store.cache, input.idemKey, input.merchant, s.store.now).Some?
    ensures var s, input := Run(config, es), Run(config, es).threads[r].input;
            var stored, answer := s.store.cache[input.idemKey].response, Step(s, LookupE(r, false)).threads[r].pc;
            if stored.RefundOutput? then
              answer == Done(Replay(stored)) && exists q :: RefundedBy(s, q, input, stored)
            else
              answer == Done(Replay(RefundOutput(NIL_ID, stored.status)))
              && NamesRow(config, es, input.idemKey, input.merchant, stored)
  {
    var s, input := Run(config, es), Run(config, es).threads[r].input;
    var stored := s.store.cache[input.idemKey].response;
    CacheAgrees(config, es, input.idemKey);
    RefundIdsAlways(config, es);
    var q :| GaveUnder(s, q, input.idemKey, input.merchant, stored) && Gave(s.store, s.threads[q], stored);
    assert stored.RefundOutput? ==> RefundedBy(s, q, input, stored);
  }

  lemma SavedNow(s: State, r: Rid)
    requires Moves(s, SaveE(r, true)) && s.threads[r].saving.value.key !in s.store.cache
    ensures var s', saving := Step(s, SaveE(r, true)), s.threads[r].saving.value;
            && saving.key in s'.store.cache
            && s'.store.cache[saving.key] == CacheRow(s.threads[r].input.merchant, saving.response, s.store.now + 86400)
  {
  }

  /**
   A response saved under an unused key is found by its merchant for exactly twenty-four hours, whatever anybody
   does in the meantime, and by no other merchant ever.
   */
  lemma SavedForADay(config: Config, es: seq<Event>, r: Rid, later: seq<Event>, merchant: Id)
    requires Moves(Run(config, es), SaveE(r, true))
    requires Run(config, es).threads[r].saving.value.key !in Run(config, es).store.cache
    ensures var s, s' := Run(config, es), Run(config, es + [SaveE(r, true)] + later);
            var found := Cached(s'.store.cache, s.threads[r].saving.value.key, merchant, s'.store.now);
            && (found.Some? <==> merchant == s.threads[r].input.merchant && s'.store.now < s.store.now + 24 * 60 * 60)
            && (found.Some? ==> found.value == s.threads[r].saving.value.response)
  {
    hide Step;
    assert (es + [SaveE(r, true)])[..|es|] == es;
    SavedNow(Run(config, es), r);
    CacheKept(config, es + [SaveE(r, true)], later, Run(config, es).threads[r].saving.value.key);
  }
}
