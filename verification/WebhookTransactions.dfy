/** The transaction store, the unsubscribe callbacks, and the statuses that events report. */
module WebhookTransactions {
  import opened Payloads
  import opened WebhookState
  import opened WebhookSteps
  import opened WebhookFanout

  // ---- store ----

  /** The handler of a terminal status of `tx` has finished its look-up in the store. */
  predicate EndsTx(job: Job, tx: Id) {
    job.tx == tx && Terminal(job.status) && (job.phase.FindingDone? || job.phase.MarkingDone? || job.phase.Closed?)
  }

  ghost predicate Ended(s: State, tx: Id) {
    exists e :: e in s.jobs && EndsTx(s.jobs[e], tx)
  }

  ghost predicate StoreOk(s: State) {
    && s.store <= s.txs.Keys
    && (forall tx :: tx in s.txs ==> s.txs[tx].unsubs == if tx in s.store then 0 else 1)
    && (forall tx :: tx in s.txs ==> (tx in s.store <==> !Ended(s, tx)))
    && (forall e :: e in s.jobs ==> s.jobs[e].tx in s.txs && s.txs[s.jobs[e].tx].launched)
  }

  /** No handler moves, and no callback is called. */
  lemma StoreStays(s: State, s': State)
    requires StoreOk(s) && s'.jobs == s.jobs && s'.store == s.store && s'.txs.Keys == s.txs.Keys
    requires forall tx :: tx in s.txs ==> s'.txs[tx].unsubs == s.txs[tx].unsubs
    requires forall tx :: tx in s.txs && s.txs[tx].launched ==> s'.txs[tx].launched
    ensures StoreOk(s')
  {
  }

  /** A handler's step ends its transaction exactly when it is the Finish of a terminal status. */
  lemma EndingStep(s: State, e: Id, x: Handling, tx: Id)
    requires HandlingEnabled(s, e, x) && JobOk(s, e, s.jobs[e])
    ensures EndsTx(JobAfter(s, e, x), tx) <==>
            EndsTx(s.jobs[e], tx) || (x.Finish? && tx == s.jobs[e].tx && Terminal(s.jobs[e].status))
  {
  }

  lemma HandlingEnds(s: State, e: Id, x: Handling, tx: Id)
    requires HandlingEnabled(s, e, x) && JobOk(s, e, s.jobs[e])
    ensures Ended(ApplyHandling(s, e, x), tx) <==>
            Ended(s, tx) || (x.Finish? && tx == s.jobs[e].tx && Terminal(s.jobs[e].status))
  {
    var s' := ApplyHandling(s, e, x);
    HandlingBooks(s, e, x);
    EndingStep(s, e, x, tx);
    hide JobOk, ApplyHandling, JobAfter, EndsTx;
    if Ended(s, tx) {
      var e' :| e' in s.jobs && EndsTx(s.jobs[e'], tx);
      assert e' in s'.jobs && EndsTx(s'.jobs[e'], tx);
    }
    if x.Finish? && tx == s.jobs[e].tx && Terminal(s.jobs[e].status) {
      assert e in s'.jobs && EndsTx(s'.jobs[e], tx);
    }
  }

  /** What a handler's step does to the transactions: it unsubscribes its own, or nothing. */
  lemma HandlingTxs(s: State, e: Id, x: Handling)
    requires HandlingEnabled(s, e, x)
    ensures var s', tx := ApplyHandling(s, e, x), s.jobs[e].tx;
      && s'.jobs.Keys == s.jobs.Keys && (forall e' :: e' in s.jobs ==> s'.jobs[e'].tx == s.jobs[e'].tx)
      && if x.Finish? && Unsubscribes(s, s.jobs[e])
         then s'.store == s.store - {tx} && s'.txs == s.txs[tx := s.txs[tx].(unsubs := s.txs[tx].unsubs + 1)]
         else s'.store == s.store && s'.txs == s.txs
  {
    assert JobAfter(s, e, x).tx == s.jobs[e].tx;
    hide JobAfter, HandlingEnabled, AllScheduled;
  }

  lemma HandlingStore(s: State, e: Id, x: Handling)
    requires StoreOk(s) && HandlingEnabled(s, e, x) && JobOk(s, e, s.jobs[e])
    ensures StoreOk(ApplyHandling(s, e, x))
  {
    hide JobOk, JobAfter, ApplyHandling, Ended, HandlingEnabled, AllScheduled;
    var s' := ApplyHandling(s, e, x);
    HandlingTxs(s, e, x);
    forall tx | tx in s'.txs ensures tx in s'.store <==> !Ended(s', tx) {
      HandlingEnds(s, e, x, tx);
    }
    forall e' | e' in s'.jobs ensures s'.jobs[e'].tx in s'.txs && s'.txs[s'.jobs[e'].tx].launched {
      assert e' in s.jobs && s'.jobs[e'].tx == s.jobs[e'].tx;
    }
  }

  lemma SubmitStore(s: State, g: Id, url: string)
    requires StoreOk(s) && s.currentTx + 1 !in s.txs
    ensures StoreOk(ApplySubmit(s, g, url))
  {
  }

  lemma StatusChangeStore(s: State, tx: Id, snap: Snapshot)
    requires StoreOk(s) && Enabled(s, StatusChange(tx, snap)) && s.currentEvent + 1 !in s.jobs
    ensures StoreOk(ApplyStatusChange(s, tx, snap))
  {
    var s' := ApplyStatusChange(s, tx, snap);
    forall tx' | tx' in s'.txs ensures tx' in s'.store <==> !Ended(s', tx') {
      if Ended(s, tx') {
        var e' :| e' in s.jobs && EndsTx(s.jobs[e'], tx');
        assert e' in s'.jobs && EndsTx(s'.jobs[e'], tx');
      }
    }
  }

  lemma SigningStore(s: State, g: Id, x: Signing)
    requires StoreOk(s) && SigningEnabled(s, g, x)
    ensures StoreOk(ApplySigning(s, g, x))
  {
    hide StoreOk;
    StoreStays(s, ApplySigning(s, g, x));
  }

  /** Every step keeps the store equal to the transactions that are not ended. */
  lemma StoreKept(s: State, x: Step)
    requires StoreOk(s) && FanoutOk(s) && Enabled(s, x)
    requires s.currentTx + 1 !in s.txs
    ensures StoreOk(Apply(s, x))
  {
    assert x.Handle? ==> x.e in s.jobs && JobOk(s, x.e, s.jobs[x.e]);
    assert s.currentEvent + 1 !in s.jobs;
    hide StoreOk, FanoutOk, EffectOf, Perform, ApplyHandling, HandlingEnabled, ApplySigning, SigningEnabled, PayloadOf;
    match x
    case Sign(g, signing) => SigningStore(s, g, signing);
    case Handle(e, handling) => HandlingStore(s, e, handling);
    case Go(t, k, move) => StoreStays(s, Perform(s, t, k, EffectOf(s, t, FlightOf(s, t).attempts[k], move)));
    case StatusChange(tx, snap) => StatusChangeStore(s, tx, snap);
    case Fire(t, h) => StoreStays(s, Ring(s, t, h));
    case Tick(ms) => StoreStays(s, Apply(s, x));
    case Submit(g, url) => SubmitStore(s, g, url);
    case Subscribe(g, scope, url) => StoreStays(s, Apply(s, x));
  }

  // ---- statuses ----

  /** The statuses that the events up to id `k` report for a transaction, in the order of their ids. */
  function StatusesOf(events: map<Id, Event>, k: nat, tx: Id): seq<TransactionStatus> {
    if k == 0 then []
    else
      StatusesOf(events, k - 1, tx) +
      (if k in events && events[k].scope == tx then [events[k].payload.status] else [])
  }

  ghost predicate StatusesOk(s: State) {
    && (forall e :: e in s.events ==> 1 <= e <= s.currentEvent)
    && (forall tx :: tx in s.txs ==> s.txs[tx].emitted == StatusesOf(s.events, s.currentEvent, tx))
    && (forall e :: e in s.events ==> s.events[e].scope in s.txs)
  }

  ghost predicate SameReports(a: map<Id, Event>, b: map<Id, Event>, k: nat) {
    forall e :: 1 <= e <= k ==>
      (e in a <==> e in b) && (e in a ==> a[e].scope == b[e].scope && a[e].payload == b[e].payload)
  }

  lemma {:induction false} StatusesSame(a: map<Id, Event>, b: map<Id, Event>, k: nat, tx: Id)
    requires SameReports(a, b, k)
    ensures StatusesOf(a, k, tx) == StatusesOf(b, k, tx)
  {
    if k > 0 {
      StatusesSame(a, b, k - 1, tx);
    }
  }

  lemma {:induction false} NoStatuses(events: map<Id, Event>, k: nat, tx: Id)
    requires forall e :: e in events ==> events[e].scope != tx
    ensures StatusesOf(events, k, tx) == []
  {
    if k > 0 {
      NoStatuses(events, k - 1, tx);
    }
  }

  lemma StatusesStay(s: State, s': State)
    requires StatusesOk(s) && SameReports(s.events, s'.events, s.currentEvent)
    requires s'.events.Keys == s.events.Keys && s'.currentEvent == s.currentEvent && s'.txs.Keys == s.txs.Keys
    requires forall tx :: tx in s.txs ==> s'.txs[tx].emitted == s.txs[tx].emitted
    ensures StatusesOk(s')
  {
    forall tx | tx in s'.txs ensures s'.txs[tx].emitted == StatusesOf(s'.events, s'.currentEvent, tx) {
      StatusesSame(s.events, s'.events, s.currentEvent, tx);
    }
  }

  lemma StatusChangeStatuses(s: State, tx: Id, snap: Snapshot)
    requires StatusesOk(s) && Enabled(s, StatusChange(tx, snap))
    ensures StatusesOk(ApplyStatusChange(s, tx, snap))
  {
    var s' := ApplyStatusChange(s, tx, snap);
    forall tx' | tx' in s'.txs ensures s'.txs[tx'].emitted == StatusesOf(s'.events, s'.currentEvent, tx') {
      StatusesSame(s.events, s'.events, s.currentEvent, tx');
    }
  }

  lemma SubmitStatuses(s: State, g: Id, url: string)
    requires StatusesOk(s) && s.currentTx + 1 !in s.txs
    ensures StatusesOk(ApplySubmit(s, g, url))
  {
    NoStatuses(s.events, s.currentEvent, s.currentTx + 1);
  }

  /** Every step keeps events reporting what the callbacks were called with, in callback order. */
  lemma StatusesKept(s: State, x: Step)
    requires StatusesOk(s) && Enabled(s, x) && s.currentTx + 1 !in s.txs
    ensures StatusesOk(Apply(s, x))
  {
    hide StatusesOk, EffectOf, Perform, PayloadOf, JobAfter;
    match x
    case Sign(g, signing) => StatusesStay(s, ApplySigning(s, g, signing));
    case Handle(e, handling) => StatusesStay(s, ApplyHandling(s, e, handling));
    case Go(t, k, move) => StatusesStay(s, Perform(s, t, k, EffectOf(s, t, FlightOf(s, t).attempts[k], move)));
    case StatusChange(tx, snap) => StatusChangeStatuses(s, tx, snap);
    case Fire(t, h) => StatusesStay(s, Ring(s, t, h));
    case Tick(ms) => StatusesStay(s, Apply(s, x));
    case Submit(g, url) => SubmitStatuses(s, g, url);
    case Subscribe(g, scope, url) => StatusesStay(s, Apply(s, x));
  }
}
