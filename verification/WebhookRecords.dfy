/**
 * Where subscriptions and events come from, whom an event reaches, and what a terminal status does,
 * spelled out on the records.
 */
module WebhookRecords {
  import opened Payloads
  import opened Wrappers
  import opened WebhookState
  import opened WebhookSteps
  import opened WebhookDelivery
  import opened WebhookEvolution
  import opened WebhookFanout
  import opened WebhookSignups
  import opened WebhookTransactions
  import opened WebhookHandshakes
  import opened WebhookNonces
  import opened WebhookEndings
  import opened WebhookTheorems

  // ---- fan-out ----

  /** An event reaches exactly the Active subscriptions of its transaction that had not expired when it fetched. */
  lemma FanoutSpelledOut(r: Run, k: nat, j: nat, e: Id, i: Id)
    requires IsRun(r) && k < j < |r.states| && r.steps[k] == Handle(e, Fetch)
    requires e in r.states[j].events && r.states[j].events[e].processed
    ensures e in r.states[k].jobs && e in r.states[k].events
    ensures var s := r.states[k];
      Notified(r.states[j], e, i) <==>
        i in s.subs && s.subs[i].status == Active && s.subs[i].scope == s.events[e].scope
        && s.subs[i].eventType == s.events[e].eventType && s.now < s.subs[i].createdAt + s.subs[i].ttl
  {
    FanoutExact(r, k, j, e, i);
    ScopeOfJob(r, k, e);
    hide IsRun, Notified;
  }

  lemma ScopeOfJob(r: Run, k: nat, e: Id)
    requires IsRun(r) && k < |r.states| && e in r.states[k].jobs
    ensures e in r.states[k].events && r.states[k].events[e].scope == r.states[k].jobs[e].tx
  {
    hide DeliveryOk, SignupsOk, ScopesOk, StoreOk, StatusesOk, HandshakesOk, NoncesOk, DoneOk, OrphansOk;
    RunInv(r, k);
    assert EventOk(r.states[k].jobs[e], r.states[k].events[e]);
  }

  // ---- a terminal status ----

  /**
   * A handler is through with its event. For Aborted, Failed, Rejected and Succeeded, if the transaction
   * is still in the store, it is removed, unsubscribed once more and cleaned up after; else nothing is done.
   */
  lemma FinishDecides(r: Run, k: nat, e: Id)
    requires IsRun(r) && k < |r.steps| && r.steps[k] == Handle(e, Finish)
    ensures e in r.states[k].jobs && e in r.states[k + 1].jobs && r.states[k].jobs[e].tx in r.states[k].txs
    ensures var s, s', job := r.states[k], r.states[k + 1], r.states[k].jobs[e];
      if job.tx in s.store && job.status in {Aborted, TransactionStatus.Failed, TransactionStatus.Rejected, Succeeded}
      then
        && s'.store == s.store - {job.tx} && s'.jobs[e].phase == FindingDone
        && s'.txs == s.txs[job.tx := s.txs[job.tx].(unsubs := s.txs[job.tx].unsubs + 1)]
      else s'.store == s.store && s'.txs == s.txs && s'.jobs[e].phase == Closed
  {
    hide DeliveryOk, FanoutOk, SignupsOk, ScopesOk, StatusesOk, HandshakesOk, NoncesOk, DoneOk, OrphansOk, Ended;
    RunInv(r, k);
  }

  /** Clean-up looks for the transaction's subscriptions that are Active and have not expired. */
  lemma FindsAll(r: Run, k: nat, e: Id, i: Id)
    requires IsRun(r) && k < |r.steps| && r.steps[k] == Handle(e, FindDone)
    ensures e in r.states[k].jobs && e in r.states[k + 1].jobs && r.states[k + 1].jobs[e].phase.MarkingDone?
    ensures var s := r.states[k];
      i in r.states[k + 1].jobs[e].phase.ids <==>
        i in s.subs && s.subs[i].status == Active && s.subs[i].scope == s.jobs[e].tx
        && s.subs[i].eventType == TransactionUpdate && s.now < s.subs[i].createdAt + s.subs[i].ttl
  {
  }

  ghost predicate ToMark(s: State, e: Id, i: Id) {
    e in s.jobs && s.jobs[e].phase.MarkingDone? && i in s.jobs[e].phase.ids
  }

  ghost predicate IsDone(s: State, i: Id) {
    i in s.subs && s.subs[i].status == Done
  }

  /** A subscription that is to be marked stays so until it is marked or its own update fails. */
  lemma StepMarks(s: State, x: Step, e: Id, i: Id)
    requires Inv(s) && Enabled(s, x) && (ToMark(s, e, i) || IsDone(s, i)) && Evolves(s, Apply(s, x))
    ensures ToMark(Apply(s, x), e, i) || IsDone(Apply(s, x), i) || x == Handle(e, MarkDoneFails(i))
  {
    hide Inv, Enabled, Apply, Evolves, ToMark, IsDone;
    if IsDone(s, i) {
      DoneStaysDone(s, Apply(s, x), i);
    } else if x.Handle? && x.e == e {
      HandleIs(s, e, x.handling);
      OwnStepMarks(s, e, x.handling, i);
    } else {
      OtherStepMarks(s, x, e, i);
    }
  }

  lemma HandleIs(s: State, e: Id, x: Handling)
    requires Enabled(s, Handle(e, x))
    ensures HandlingEnabled(s, e, x) && Apply(s, Handle(e, x)) == ApplyHandling(s, e, x)
  {
    hide HandlingEnabled, ApplyHandling;
  }

  lemma OtherStepMarks(s: State, x: Step, e: Id, i: Id)
    requires Inv(s) && Enabled(s, x) && ToMark(s, e, i) && !(x.Handle? && x.e == e)
    ensures ToMark(Apply(s, x), e, i)
  {
    hide Enabled, Apply, DeliveryOk, FanoutOk, SignupsOk, ScopesOk, StoreOk, StatusesOk, HandshakesOk, NoncesOk, DoneOk,
      OrphansOk;
    Counters(s);
    OthersLeaveJob(s, x, e);
  }

  lemma DoneStaysDone(s: State, s': State, i: Id)
    requires Evolves(s, s') && IsDone(s, i)
    ensures IsDone(s', i)
  {
  }

  lemma OwnStepMarks(s: State, e: Id, x: Handling, i: Id)
    requires Inv(s) && HandlingEnabled(s, e, x) && ToMark(s, e, i)
    ensures var s' := ApplyHandling(s, e, x); ToMark(s', e, i) || IsDone(s', i) || x == MarkDoneFails(i)
  {
    hide DeliveryOk, SignupsOk, ScopesOk, StoreOk, StatusesOk, HandshakesOk, NoncesOk, DoneOk, OrphansOk,
      HandlingEnabled, ApplyHandling;
    assert JobOk(s, e, s.jobs[e]) && Subscribed(s, s.jobs[e].tx, i);
    hide FanoutOk;
    HandlerMarks(s, e, x, i);
  }

  lemma HandlerMarks(s: State, e: Id, x: Handling, i: Id)
    requires HandlingEnabled(s, e, x) && ToMark(s, e, i) && JobOk(s, e, s.jobs[e]) && i in s.subs
    ensures var s' := ApplyHandling(s, e, x); ToMark(s', e, i) || IsDone(s', i) || x == MarkDoneFails(i)
  {
    assert forall h :: h in s.jobs[e].creations ==> CreationOk(s, e, s.jobs[e], h);
    hide AllScheduled;
  }

  /** A handler's job is its own. */
  lemma OthersLeaveJob(s: State, x: Step, e: Id)
    requires Enabled(s, x) && e in s.jobs && s.currentEvent + 1 !in s.jobs && !(x.Handle? && x.e == e)
    ensures e in Apply(s, x).jobs && Apply(s, x).jobs[e] == s.jobs[e]
  {
    hide HandlingEnabled, JobAfter, ApplyHandling, ApplySigning, SigningEnabled, Perform, Ring, MoveEnabled, EffectOf,
      PayloadOf;
    if x.Handle? {
      HandlingBooks(s, x.e, x.handling);
    }
  }

  ghost predicate UpdateFailed(r: Run, k: nat, j: nat, e: Id, i: Id) {
    exists h :: k < h < j && h < |r.steps| && r.steps[h] == Handle(e, MarkDoneFails(i))
  }

  /**
   * Marking is complete: from the moment clean-up found a subscription, it is still to be marked, or it is
   * Done, or the update of that very subscription failed.
   */
  lemma {:induction false} MarkingIsComplete(r: Run, k: nat, j: nat, e: Id, i: Id)
    requires IsRun(r) && k < j < |r.states| && r.steps[k] == Handle(e, FindDone) && ToMark(r.states[k + 1], e, i)
    ensures ToMark(r.states[j], e, i) || IsDone(r.states[j], i) || UpdateFailed(r, k, j, e, i)
  {
    hide Enabled, Apply, Inv, Evolves, ToMark, IsDone;
    if j > k + 1 {
      MarkingIsComplete(r, k, j - 1, e, i);
      if UpdateFailed(r, k, j - 1, e, i) {
        var h :| k < h < j - 1 && h < |r.steps| && r.steps[h] == Handle(e, MarkDoneFails(i));
      } else {
        RunInv(r, j - 1);
        InvKept(r.states[j - 1], r.steps[j - 1]);
        StepMarks(r.states[j - 1], r.steps[j - 1], e, i);
      }
    }
  }

  /**
   * So when a handler has nothing left to mark, every subscription of its transaction that was Active and
   * unexpired when it looked is Done, unless its update failed.
   */
  lemma AllAreDone(r: Run, k: nat, j: nat, e: Id, i: Id)
    requires IsRun(r) && k < j < |r.states| && r.steps[k] == Handle(e, FindDone) && e in r.states[k].jobs
    requires i in r.states[k].subs && r.states[k].subs[i].status == Active
    requires r.states[k].subs[i].scope == r.states[k].jobs[e].tx
    requires r.states[k].now < r.states[k].subs[i].createdAt + r.states[k].subs[i].ttl
    requires e in r.states[j].jobs && r.states[j].jobs[e].phase == MarkingDone({})
    ensures IsDone(r.states[j], i) || UpdateFailed(r, k, j, e, i)
  {
    FindsAll(r, k, e, i);
    hide IsRun, UpdateFailed, IsDone;
    MarkingIsComplete(r, k, j, e, i);
  }

  // ---- the handler of an event, await by await ----

  /** The nonces that the matching subscriptions are at. */
  ghost predicate ReadNonces(s: State, scope: Id, affected: map<Id, int>) {
    forall i :: if i in s.subs && s.subs[i].status == Active && s.subs[i].scope == scope
                   && s.subs[i].eventType == TransactionUpdate && s.now < s.subs[i].createdAt + s.subs[i].ttl
                then i in affected && affected[i] == s.subs[i].nextNonce
                else i !in affected
  }

  /** Where the handler is before and after each of its steps, and what it holds; failures included. */
  lemma HandlerFollows(r: Run, k: nat, e: Id, x: Handling)
    requires IsRun(r) && k < |r.steps| && r.steps[k] == Handle(e, x)
    ensures e in r.states[k].jobs && e in r.states[k + 1].jobs
    ensures var s, a, b := r.states[k], r.states[k].jobs[e], r.states[k + 1].jobs[e];
      && b.tx == a.tx && b.status == a.status
      && match x
         case Fetch =>
           a.phase == Fetching && ReadNonces(s, a.tx, b.affected) && b.creations == a.creations
           && b.phase == if b.affected == map[] then Creating else Bumping
         case Bump =>
           a.phase == Bumping && b.phase == Creating && b.affected == a.affected && b.creations.Keys == a.affected.Keys
           && forall i :: i in b.creations ==> b.creations[i] == Pending
         case StoreNotification(i, n) =>
           i in a.creations && a.creations[i] == Pending && b == a.(creations := a.creations[i := Stored(n)])
         case ScheduleNotification(i) => i in a.creations && a.creations[i].Stored? && b == a
         case MarkProcessed => a.phase == Creating && b == a.(phase := Processed)
         case Finish => a.phase == Processed && b == a.(phase := b.phase)
         case FindDone => a.phase == FindingDone && b == a.(phase := b.phase)
         case MarkDone(i) =>
           a.phase.MarkingDone? && i in a.phase.ids && b == a.(phase := MarkingDone(a.phase.ids - {i}))
         // a failure before the event is processed ends its handling; one after that only its clean-up
         case FetchFails => a.phase == Fetching && b == a.(phase := Abandoned)
         case BumpFails => a.phase == Bumping && b == a.(phase := Abandoned, affected := map[])
         case StoreNotificationFails(i) =>
           i in a.creations && a.creations[i] == Pending
           && b == a.(phase := Abandoned, creations := a.creations[i := Creation.Lost])
         case FindDoneFails => a.phase == FindingDone && b == a.(phase := Closed)
         case MarkDoneFails(i) =>
           a.phase.MarkingDone? && i in a.phase.ids && b == a.(phase := MarkingDone(a.phase.ids - {i}))
  {
  }

  /** What each step of a handler writes: counters, one notification, one flag, one status; failures write nothing. */
  lemma HandlerWrites(r: Run, k: nat, e: Id, x: Handling)
    requires IsRun(r) && k < |r.steps| && r.steps[k] == Handle(e, x)
    ensures e in r.states[k].jobs && e in r.states[k].events
    ensures var s, s', job := r.states[k], r.states[k + 1], r.states[k].jobs[e];
      && (x.Bump? ==>
            s'.subs.Keys == s.subs.Keys
            && forall i :: i in s.subs ==>
                             var nonce := s.subs[i].nextNonce + if i in job.affected then 1 else 0;
                             s'.subs[i] == s.subs[i].(nextNonce := nonce))
      && (x.MarkDone? ==>
            s'.subs == if x.sub in s.subs then s.subs[x.sub := s.subs[x.sub].(status := Done)] else s.subs)
      && (!x.Bump? && !x.MarkDone? ==> s'.subs == s.subs)
      && (x.StoreNotification? ==>
            x.sub in job.affected && x.n !in s.notifs
            && s'.notifs ==
               s.notifs[x.n := Notification(e, x.sub, job.affected[x.sub], s.cfg.notificationTries, Unsettled)])
      && (!x.StoreNotification? ==> s'.notifs == s.notifs)
      && s'.events == (if x.MarkProcessed? then s.events[e := s.events[e].(processed := true)] else s.events)
      && (x.MarkProcessed? ==> forall i :: i in job.creations ==> job.creations[i].Stored?)
      && s'.log == s.log && s'.now == s.now
  {
    hide JobAfter;
  }

  /** An event whose handling failed is never marked as processed. */
  lemma {:induction false} FailedStaysUnprocessed(r: Run, k: nat, j: nat, e: Id, x: Handling)
    requires IsRun(r) && k < j < |r.states| && r.steps[k] == Handle(e, x)
    requires x.FetchFails? || x.BumpFails? || x.StoreNotificationFails?
    ensures e in r.states[j].jobs && r.states[j].jobs[e].phase == Abandoned
    ensures e in r.states[j].events && !r.states[j].events[e].processed
  {
    hide Enabled, Apply, Inv;
    if j == k + 1 {
      HandlerFollows(r, k, e, x);
    } else {
      FailedStaysUnprocessed(r, k, j - 1, e, x);
      RunInv(r, j - 1);
      ReadingStays(r.states[j - 1], r.steps[j - 1], e);
    }
    RunInv(r, j);
    AbandonedIsUnprocessed(r.states[j], e);
  }

  lemma AbandonedIsUnprocessed(s: State, e: Id)
    requires Inv(s) && e in s.jobs && s.jobs[e].phase == Abandoned
    ensures e in s.events && !s.events[e].processed
  {
    hide DeliveryOk, SignupsOk, ScopesOk, StoreOk, StatusesOk, HandshakesOk, NoncesOk, DoneOk, OrphansOk;
    assert EventOk(s.jobs[e], s.events[e]);
  }

  // ---- subscriptions ----

  /** Step `k` asked for the subscription: a submission of its transaction, or somebody else. */
  predicate AsksFor(r: Run, k: nat, g: Id, scope: Id, url: string) {
    && k < |r.steps| && k < |r.states|
    && ((r.steps[k] == Submit(g, url) && scope == r.states[k].currentTx + 1) || r.steps[k] == Subscribe(g, scope, url))
  }

  ghost predicate AskedBefore(r: Run, j: nat, g: Id, u: Signup) {
    exists k :: 0 <= k < j && AsksFor(r, k, g, u.scope, u.url) && u.createdAt == r.states[k].now
                && (u.initial <==> r.steps[k].Submit?)
  }

  lemma SignupKept(s: State, x: Step, g: Id)
    requires Enabled(s, x) && g in Apply(s, x).signups
    ensures var u' := Apply(s, x).signups[g];
      if g in s.signups then
        var u := s.signups[g];
        u'.scope == u.scope && u'.url == u.url && u'.createdAt == u.createdAt && u'.initial == u.initial
      else
        && u'.createdAt == s.now && (u'.initial <==> x.Submit?)
        && ((x == Submit(g, u'.url) && u'.scope == s.currentTx + 1) || x == Subscribe(g, u'.scope, u'.url))
  {
    hide HandlingEnabled, JobAfter, MoveEnabled, EffectOf, PayloadOf;
  }

  lemma {:induction false} SignupsWereAsked(r: Run, j: nat, g: Id)
    requires IsRun(r) && j < |r.states| && g in r.states[j].signups
    ensures AskedBefore(r, j, g, r.states[j].signups[g])
  {
    hide Enabled, Apply;
    var u := r.states[j].signups[g];
    SignupKept(r.states[j - 1], r.steps[j - 1], g);
    if g in r.states[j - 1].signups {
      SignupsWereAsked(r, j - 1, g);
      var k :| 0 <= k < j - 1 && AsksFor(r, k, g, u.scope, u.url) && u.createdAt == r.states[k].now
        && (u.initial <==> r.steps[k].Submit?);
      assert k < j;
    } else {
      assert AsksFor(r, j - 1, g, u.scope, u.url);
    }
  }

  /** Where the creation of a subscription is before and after each of its steps, failures included. */
  lemma SignupFollows(r: Run, k: nat, g: Id, x: Signing)
    requires IsRun(r) && k < |r.steps| && r.steps[k] == Sign(g, x)
    ensures g in r.states[k].signups && g in r.states[k + 1].signups
    ensures var a, b := r.states[k].signups[g].phase, r.states[k + 1].signups[g].phase;
      match x
      case StoreSubscription(i) => a == Storing && b == Scheduling(i)
      case StoreSubscriptionFails => a == Storing && b == Broken
      case ScheduleHandshake =>
        a.Scheduling? && b == if r.states[k].signups[g].initial then SettingNonce(a.sub) else Complete(a.sub)
      case SetNonce => a.SettingNonce? && b == Complete(a.sub)
      case SetNonceFails => a.SettingNonce? && b == Broken
  {
  }

  /**
   * What those steps write: a new Inactive subscription with all its tries and nonce 0; nonce 1, the start
   * of the transaction and the response with nonce 0; failures write nothing and start nothing.
   */
  lemma SignupWrites(r: Run, k: nat, g: Id, x: Signing)
    requires IsRun(r) && k < |r.steps| && r.steps[k] == Sign(g, x)
    ensures g in r.states[k].signups
    ensures var s, s', u := r.states[k], r.states[k + 1], r.states[k].signups[g];
      match x
      case StoreSubscription(i) =>
        && i !in s.subs && s'.txs == s.txs && s'.log == s.log
        && s'.subs == s.subs[i := Subscription(TransactionUpdate, u.scope, u.url, u.createdAt, s.cfg.ttl, Inactive,
                                               s.cfg.handshakeTries, 0, g)]
      case SetNonce =>
        && u.phase.SettingNonce? && u.phase.sub in s.subs && u.scope in s.txs
        && s'.subs == s.subs[u.phase.sub := s.subs[u.phase.sub].(nextNonce := 1)]
        && s'.txs == s.txs[u.scope := s.txs[u.scope].(launched := true)]
        && s'.log == s.log + [InitialResponse(u.phase.sub, 0)]
      case _ => s'.subs == s.subs && s'.txs == s.txs && s'.log == s.log
  {
    if x.SetNonce? { SettingFacts(r, k, g); }
    hide SignupAfter;
  }

  lemma SettingFacts(r: Run, k: nat, g: Id)
    requires IsRun(r) && k < |r.states| && g in r.states[k].signups && r.states[k].signups[g].phase.SettingNonce?
    ensures r.states[k].signups[g].phase.sub in r.states[k].subs && r.states[k].signups[g].scope in r.states[k].txs
  {
    hide DeliveryOk, FanoutOk, StoreOk, StatusesOk, HandshakesOk, NoncesOk, DoneOk, OrphansOk;
    RunInv(r, k);
    assert SignupOk(r.states[k], g, r.states[k].signups[g]) && ScopeOk(r.states[k], r.states[k].signups[g]);
  }

  /** The subscription is what its signup asked for, for as long as the service is configured to keep it. */
  ghost predicate MadeFor(s: State, i: Id) {
    && i in s.subs && s.subs[i].origin in s.signups
    && var sub, u := s.subs[i], s.signups[s.subs[i].origin];
       sub.url == u.url && sub.scope == u.scope && sub.createdAt == u.createdAt && sub.ttl == s.cfg.ttl
       && sub.eventType == TransactionUpdate
  }

  lemma StepMakes(s: State, x: Step, i: Id)
    requires Enabled(s, x) && Evolves(s, Apply(s, x)) && i in Apply(s, x).subs && (i in s.subs ==> MadeFor(s, i))
    ensures MadeFor(Apply(s, x), i)
  {
    if i in s.subs {
      KeepsMade(s, x, i);
    } else {
      hide HandlingEnabled, JobAfter, MoveEnabled, EffectOf, PayloadOf, Evolves;
    }
  }

  lemma KeepsMade(s: State, x: Step, i: Id)
    requires Enabled(s, x) && Evolves(s, Apply(s, x)) && MadeFor(s, i)
    ensures MadeFor(Apply(s, x), i)
  {
    var g := s.subs[i].origin;
    assert g in Apply(s, x).signups && Apply(s, x).cfg == s.cfg by {
      hide HandlingEnabled, JobAfter, MoveEnabled, EffectOf, PayloadOf, Evolves;
    }
    SignupKept(s, x, g);
    hide Enabled, Apply;
  }

  lemma {:induction false} SubscriptionsWereMade(r: Run, j: nat, i: Id)
    requires IsRun(r) && j < |r.states| && i in r.states[j].subs
    ensures MadeFor(r.states[j], i)
  {
    hide Enabled, Apply, Inv, Evolves, MadeFor;
    RunInv(r, j - 1);
    InvKept(r.states[j - 1], r.steps[j - 1]);
    if i in r.states[j - 1].subs {
      SubscriptionsWereMade(r, j - 1, i);
    }
    StepMakes(r.states[j - 1], r.steps[j - 1], i);
  }

  /**
   * In every run, a subscription has the URL and the transaction that some request asked for, counts its
   * time from that request, and lasts as long as configured.
   */
  lemma SubscriptionIsAsAsked(r: Run, j: nat, i: Id)
    requires IsRun(r) && j < |r.states| && i in r.states[j].subs
    ensures var sub := r.states[j].subs[i];
      && sub.ttl == r.states[j].cfg.ttl
      && exists k :: 0 <= k < j && AsksFor(r, k, sub.origin, sub.scope, sub.url) && sub.createdAt == r.states[k].now
  {
    SubscriptionsWereMade(r, j, i);
    hide IsRun;
    SignupsWereAsked(r, j, r.states[j].subs[i].origin);
  }

  // ---- events ----

  /** An event keeps its scope and its payload. */
  lemma StepKeepsEvent(s: State, x: Step, e: Id)
    requires Enabled(s, x) && e in s.events && s.currentEvent + 1 !in s.events
    ensures e in Apply(s, x).events
    ensures var a, b := s.events[e], Apply(s, x).events[e];
      b.scope == a.scope && b.payload == a.payload && b.eventType == a.eventType
  {
    hide HandlingEnabled, JobAfter, SigningEnabled, MoveEnabled, EffectOf, PayloadOf;
  }

  /** A reported status becomes the next event, of that transaction, with the payload of that snapshot, for good. */
  lemma {:induction false} EventIsAsReported(r: Run, k: nat, j: nat, tx: Id, snap: Snapshot)
    requires IsRun(r) && k < j < |r.states| && r.steps[k] == StatusChange(tx, snap)
    ensures var e := r.states[k].currentEvent + 1;
      && e in r.states[j].events && r.states[j].events[e].scope == tx
      && PayloadOf(snap) == Some(r.states[j].events[e].payload)
  {
    hide PayloadOf, Inv;
    if j == k + 1 {
      ReportedNow(r, k, tx, snap);
    } else {
      hide Enabled, Apply;
      EventIsAsReported(r, k, j - 1, tx, snap);
      RunInv(r, j - 1);
      InvCounters(r.states[j - 1]);
      StepKeepsEvent(r.states[j - 1], r.steps[j - 1], r.states[k].currentEvent + 1);
    }
  }

  lemma ReportedNow(r: Run, k: nat, tx: Id, snap: Snapshot)
    requires IsRun(r) && k < |r.steps| && r.steps[k] == StatusChange(tx, snap)
    ensures var e := r.states[k].currentEvent + 1;
      && e in r.states[k + 1].events && r.states[k + 1].events[e].scope == tx
      && PayloadOf(snap) == Some(r.states[k + 1].events[e].payload)
  {
  }

  lemma InvCounters(s: State)
    requires Inv(s)
    ensures s.currentEvent + 1 !in s.events
  {
    hide DeliveryOk, SignupsOk, StoreOk, StatusesOk, HandshakesOk, NoncesOk, DoneOk, OrphansOk;
    Counters(s);
  }
}
