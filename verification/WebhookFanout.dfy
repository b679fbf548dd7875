/**
 * Fan-out of an event: who gets a notification, and what the handler of the event has done when it
 * reaches each of its awaits.
 */
module WebhookFanout {
  import opened Payloads
  import opened WebhookState
  import opened WebhookSteps
  import opened WebhookDelivery
  import opened WebhookEvolution

  predicate PastProcessing(phase: JobPhase) {
    phase.Processed? || phase.FindingDone? || phase.MarkingDone? || phase.Closed?
  }

  predicate BeforeCreating(phase: JobPhase) {
    phase.Fetching? || phase.Bumping?
  }

  /** A subscription of the event's own scope that was Active once. */
  ghost predicate Subscribed(s: State, scope: Id, i: Id) {
    Confirmed(s, i) && s.subs[i].scope == scope
  }

  ghost predicate CreationOk(s: State, e: Id, job: Job, i: Id) {
    && i in job.affected && i in job.creations
    && (PastProcessing(job.phase) ==> job.creations[i].Stored?)
    && (job.creations[i].Stored? ==>
          var n := job.creations[i].n;
          && n in s.notifs
          && s.notifs[n].event == e && s.notifs[n].sub == i && s.notifs[n].nonce == job.affected[i])
  }

  /** The stored event tells what its handler was called with, and whether it got that far. */
  ghost predicate EventOk(job: Job, ev: Event) {
    && ev.scope == job.tx && ev.eventType == TransactionUpdate
    && ev.payload.status == job.status
    && (ev.processed <==> PastProcessing(job.phase))
  }

  ghost predicate JobOk(s: State, e: Id, job: Job) {
    && (job.phase.Fetching? ==> job.affected == map[])
    && (if BeforeCreating(job.phase) then job.creations == map[] else job.creations.Keys == job.affected.Keys)
    && (job.phase.FindingDone? || job.phase.MarkingDone? ==> Terminal(job.status))
    && (forall i :: i in job.affected ==> Subscribed(s, job.tx, i))
    && (job.phase.MarkingDone? ==> forall i :: i in job.phase.ids ==> Subscribed(s, job.tx, i))
    && (forall i :: i in job.creations ==> CreationOk(s, e, job, i))
  }

  ghost predicate NotifOk(s: State, n: Id) {
    n in s.notifs &&
    var e, i := s.notifs[n].event, s.notifs[n].sub;
    e in s.jobs && i in s.jobs[e].creations && s.jobs[e].creations[i] == Stored(n)
  }

  ghost predicate FanoutOk(s: State) {
    && (forall e :: e in s.jobs <==> 1 <= e <= s.currentEvent)
    && s.events.Keys == s.jobs.Keys
    && (forall e :: e in s.jobs ==> e in s.events && JobOk(s, e, s.jobs[e]) && EventOk(s.jobs[e], s.events[e]))
    && (forall n :: n in s.notifs ==> NotifOk(s, n))
  }

  lemma DoneTargets(s: State)
    requires FanoutOk(s)
    ensures DoneTargetsOk(s)
  {
    forall e, i | e in s.jobs && s.jobs[e].phase.MarkingDone? && i in s.jobs[e].phase.ids ensures Confirmed(s, i) {
      assert JobOk(s, e, s.jobs[e]);
      assert Subscribed(s, s.jobs[e].tx, i);
    }
  }

  /** Records evolve under a handler that is not itself moving. */
  lemma JobEvolves(s: State, s': State, e: Id, job: Job)
    requires JobOk(s, e, job) && Evolves(s, s')
    ensures JobOk(s', e, job)
  {
    forall i | i in job.affected ensures Subscribed(s', job.tx, i) {
      assert Subscribed(s, job.tx, i);
    }
    if job.phase.MarkingDone? {
      forall i | i in job.phase.ids ensures Subscribed(s', job.tx, i) {
        assert Subscribed(s, job.tx, i);
      }
    }
    forall i | i in job.creations ensures CreationOk(s', e, job, i) {
      assert CreationOk(s, e, job, i);
    }
  }

  lemma OthersKeep(s: State, s': State)
    requires FanoutOk(s) && Evolves(s, s')
    requires s'.jobs == s.jobs && s'.events == s.events && s'.currentEvent == s.currentEvent
    requires s'.notifs.Keys == s.notifs.Keys
    ensures FanoutOk(s')
  {
    forall e | e in s.jobs ensures JobOk(s', e, s.jobs[e]) {
      JobEvolves(s, s', e, s.jobs[e]);
    }
    forall n | n in s'.notifs ensures NotifOk(s', n) {
      assert NotifOk(s, n);
    }
  }

  lemma FetchKeeps(s: State, e: Id)
    requires e in s.jobs && e in s.events && JobOk(s, e, s.jobs[e]) && s.jobs[e].phase.Fetching?
    ensures JobOk(s, e, JobAfter(s, e, Fetch))
  {
    var job := JobAfter(s, e, Fetch);
    forall i | i in job.affected ensures Subscribed(s, job.tx, i) {
      assert i in Matched(s.subs, job.tx, s.now);
    }
  }

  lemma BumpKeeps(s: State, e: Id)
    requires e in s.jobs && e in s.events && JobOk(s, e, s.jobs[e]) && s.jobs[e].phase.Bumping?
    ensures JobOk(s, e, JobAfter(s, e, Bump))
  {
    var job := JobAfter(s, e, Bump);
    assert job.creations.Keys == job.affected.Keys;
  }

  lemma StoreKeeps(s: State, e: Id, i: Id, n: Id)
    requires HandlingEnabled(s, e, StoreNotification(i, n)) && JobOk(s, e, s.jobs[e])
    requires Evolves(s, ApplyHandling(s, e, StoreNotification(i, n)))
    ensures JobOk(ApplyHandling(s, e, StoreNotification(i, n)), e, JobAfter(s, e, StoreNotification(i, n)))
  {
    var s' := ApplyHandling(s, e, StoreNotification(i, n));
    var job, job' := s.jobs[e], JobAfter(s, e, StoreNotification(i, n));
    JobEvolves(s, s', e, job);
    assert job'.creations.Keys == job.creations.Keys;
    forall j | j in job'.creations ensures CreationOk(s', e, job', j) {
      assert CreationOk(s', e, job, j);
    }
  }

  lemma MarkProcessedKeeps(s: State, e: Id)
    requires HandlingEnabled(s, e, MarkProcessed) && JobOk(s, e, s.jobs[e])
    ensures JobOk(s, e, JobAfter(s, e, MarkProcessed))
  {
    var job, job' := s.jobs[e], JobAfter(s, e, MarkProcessed);
    forall j | j in job'.creations ensures CreationOk(s, e, job', j) {
      assert CreationOk(s, e, job, j);
    }
  }

  /** Clean-up after a terminal status: the same creations, all of them still stored. */
  lemma CleanupKeeps(s: State, e: Id, x: Handling)
    requires HandlingEnabled(s, e, x) && JobOk(s, e, s.jobs[e])
    requires x.Finish? || x.FindDone? || x.FindDoneFails? || x.MarkDone? || x.MarkDoneFails?
    ensures JobOk(s, e, JobAfter(s, e, x))
  {
    var job, job' := s.jobs[e], JobAfter(s, e, x);
    forall j | j in job'.creations ensures CreationOk(s, e, job', j) {
      assert CreationOk(s, e, job, j);
    }
    if job'.phase.MarkingDone? {
      forall i | i in job'.phase.ids ensures Subscribed(s, job.tx, i) {
        assert x.FindDone? ==> i in Matched(s.subs, job.tx, s.now);
      }
    }
  }

  lemma FailureKeeps(s: State, e: Id, x: Handling)
    requires HandlingEnabled(s, e, x) && JobOk(s, e, s.jobs[e])
    requires x.FetchFails? || x.BumpFails? || x.StoreNotificationFails? || x.ScheduleNotification?
    ensures JobOk(s, e, JobAfter(s, e, x))
  {
    var job, job' := s.jobs[e], JobAfter(s, e, x);
    forall j | j in job'.creations ensures CreationOk(s, e, job', j) {
      assert CreationOk(s, e, job, j);
    }
  }

  lemma EventKeeps(s: State, e: Id, x: Handling)
    requires HandlingEnabled(s, e, x) && JobOk(s, e, s.jobs[e]) && EventOk(s.jobs[e], s.events[e])
    ensures EventOk(JobAfter(s, e, x), ApplyHandling(s, e, x).events[e])
  {
    if x.StoreNotificationFails? {
      assert CreationOk(s, e, s.jobs[e], x.sub);
    }
  }

  lemma JobKeeps(s: State, e: Id, x: Handling)
    requires HandlingEnabled(s, e, x) && JobOk(s, e, s.jobs[e]) && EventOk(s.jobs[e], s.events[e])
    requires Evolves(s, ApplyHandling(s, e, x))
    ensures JobOk(ApplyHandling(s, e, x), e, JobAfter(s, e, x))
    ensures EventOk(JobAfter(s, e, x), ApplyHandling(s, e, x).events[e])
  {
    hide JobOk, Evolves, AllScheduled;
    EventKeeps(s, e, x);
    if x.StoreNotification? {
      StoreKeeps(s, e, x.sub, x.n);
    } else {
      if x.Fetch? { FetchKeeps(s, e); }
      else if x.Bump? { BumpKeeps(s, e); }
      else if x.MarkProcessed? { MarkProcessedKeeps(s, e); }
      else if x.FetchFails? || x.BumpFails? || x.StoreNotificationFails? || x.ScheduleNotification? {
        FailureKeeps(s, e, x);
      }
      else { CleanupKeeps(s, e, x); }
      JobEvolves(s, ApplyHandling(s, e, x), e, JobAfter(s, e, x));
    }
  }

  /** A handler's step writes its own job and at most its own event. */
  lemma HandlingBooks(s: State, e: Id, x: Handling)
    requires HandlingEnabled(s, e, x)
    ensures ApplyHandling(s, e, x).jobs == s.jobs[e := JobAfter(s, e, x)]
    ensures e in ApplyHandling(s, e, x).events
    ensures ApplyHandling(s, e, x).events == s.events[e := ApplyHandling(s, e, x).events[e]]
  {
  }

  lemma StoredStays(s: State, e: Id, x: Handling, i: Id)
    requires HandlingEnabled(s, e, x) && JobOk(s, e, s.jobs[e])
    requires i in s.jobs[e].creations && s.jobs[e].creations[i].Stored?
    ensures i in JobAfter(s, e, x).creations && JobAfter(s, e, x).creations[i] == s.jobs[e].creations[i]
  {
  }

  lemma NotifKeeps(s: State, e: Id, x: Handling, n: Id)
    requires HandlingEnabled(s, e, x) && JobOk(s, e, s.jobs[e]) && n in ApplyHandling(s, e, x).notifs
    requires n in s.notifs ==> NotifOk(s, n)
    ensures NotifOk(ApplyHandling(s, e, x), n)
  {
    if n in s.notifs && s.notifs[n].event == e {
      StoredStays(s, e, x, s.notifs[n].sub);
    }
  }

  lemma JobsKeep(s: State, e: Id, x: Handling)
    requires FanoutOk(s) && HandlingEnabled(s, e, x) && Evolves(s, ApplyHandling(s, e, x))
    ensures forall e' :: e' in s.jobs && e' != e ==> JobOk(ApplyHandling(s, e, x), e', s.jobs[e'])
  {
    hide JobOk, EventOk, Evolves, HandlingEnabled, NotifOk, JobAfter, ApplyHandling;
    forall e' | e' in s.jobs && e' != e ensures JobOk(ApplyHandling(s, e, x), e', s.jobs[e']) {
      JobEvolves(s, ApplyHandling(s, e, x), e', s.jobs[e']);
    }
  }

  lemma Rebuilt(s: State, s': State, e: Id)
    requires FanoutOk(s) && e in s.jobs && e in s'.jobs && e in s'.events
    requires s'.jobs == s.jobs[e := s'.jobs[e]] && s'.events == s.events[e := s'.events[e]]
    requires s'.currentEvent == s.currentEvent
    requires JobOk(s', e, s'.jobs[e]) && EventOk(s'.jobs[e], s'.events[e])
    requires forall e' :: e' in s.jobs && e' != e ==> JobOk(s', e', s.jobs[e'])
    requires forall n :: n in s'.notifs ==> NotifOk(s', n)
    ensures FanoutOk(s')
  {
    hide JobOk, EventOk, NotifOk;
  }

  lemma HandlingFanout(s: State, e: Id, x: Handling)
    requires FanoutOk(s) && HandlingEnabled(s, e, x)
    requires Evolves(s, ApplyHandling(s, e, x))
    ensures FanoutOk(ApplyHandling(s, e, x))
  {
    assert e in s.jobs && e in s.events && JobOk(s, e, s.jobs[e]) && EventOk(s.jobs[e], s.events[e]);
    assert forall n :: n in s.notifs ==> NotifOk(s, n);
    hide FanoutOk, JobOk, EventOk, Evolves, HandlingEnabled, NotifOk, JobAfter, ApplyHandling;
    var s' := ApplyHandling(s, e, x);
    HandlingBooks(s, e, x);
    JobKeeps(s, e, x);
    JobsKeep(s, e, x);
    forall n | n in s'.notifs ensures NotifOk(s', n) {
      NotifKeeps(s, e, x, n);
    }
    Rebuilt(s, s', e);
  }

  lemma NewJobOk(s: State, e: Id, tx: Id, snap: Snapshot)
    requires Payloads.Complete(snap)
    ensures JobOk(s, e, Job(tx, snap.status, Fetching, map[], map[]))
    ensures EventOk(Job(tx, snap.status, Fetching, map[], map[]),
            Event(TransactionUpdate, tx, PayloadOf(snap).value, false))
  {
  }

  lemma StatusChangeFanout(s: State, tx: Id, snap: Snapshot)
    requires FanoutOk(s) && tx in s.txs && Payloads.Complete(snap)
    ensures FanoutOk(ApplyStatusChange(s, tx, snap))
  {
    hide JobOk, EventOk, PayloadOf, Evolves;
    var s' := ApplyStatusChange(s, tx, snap);
    StandsStill(s, s');
    NewJobOk(s', s'.currentEvent, tx, snap);
    forall e | e in s.jobs ensures JobOk(s', e, s.jobs[e]) {
      JobEvolves(s, s', e, s.jobs[e]);
    }
    forall n | n in s'.notifs ensures NotifOk(s', n) {
      assert NotifOk(s, n);
    }
  }

  lemma PerformFanout(s: State, t: Task, k: nat, eff: Effect)
    requires FanoutOk(s) && k < |FlightOf(s, t).attempts| && Evolves(s, Perform(s, t, k, eff))
    ensures FanoutOk(Perform(s, t, k, eff))
  {
    hide FanoutOk, Evolves;
    OthersKeep(s, Perform(s, t, k, eff));
  }

  lemma SigningFanout(s: State, g: Id, x: Signing)
    requires FanoutOk(s) && SigningEnabled(s, g, x) && Evolves(s, ApplySigning(s, g, x))
    ensures FanoutOk(ApplySigning(s, g, x))
  {
    hide FanoutOk, Evolves;
    OthersKeep(s, ApplySigning(s, g, x));
  }

  /** Every step keeps the book of events, handlers and notifications in order. */
  lemma FanoutKept(s: State, x: Step)
    requires FanoutOk(s) && Enabled(s, x) && Evolves(s, Apply(s, x))
    ensures FanoutOk(Apply(s, x))
  {
    hide FanoutOk, Evolves, EffectOf, Perform, ApplyHandling, HandlingEnabled, ApplySigning, SigningEnabled,
      PayloadOf;
    match x
    case Handle(e, handling) => HandlingFanout(s, e, handling);
    case StatusChange(tx, snap) => StatusChangeFanout(s, tx, snap);
    case Sign(g, signing) => SigningFanout(s, g, signing);
    case Go(t, k, move) => PerformFanout(s, t, k, EffectOf(s, t, FlightOf(s, t).attempts[k], move));
    case Fire(t, h) => OthersKeep(s, Ring(s, t, h));
    case Tick(ms) => OthersKeep(s, Apply(s, x));
    case Submit(g, url) => OthersKeep(s, ApplySubmit(s, g, url));
    case Subscribe(g, scope, url) => OthersKeep(s, Apply(s, x));
  }
}
