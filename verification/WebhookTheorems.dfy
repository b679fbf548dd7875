/** What every run of the webhook protocol guarantees, whatever the interleaving and the failures. */
module WebhookTheorems {
  import opened Payloads
  import opened WebhookState
  import opened WebhookSteps
  import opened WebhookDelivery
  import opened WebhookEvolution
  import opened WebhookFanout
  import opened WebhookSignups
  import opened WebhookTransactions
  import opened WebhookHandshakes
  import opened WebhookNonces
  import opened WebhookEndings

  ghost predicate Inv(s: State) {
    && DeliveryOk(s) && FanoutOk(s) && SignupsOk(s) && ScopesOk(s) && StoreOk(s) && StatusesOk(s)
    && HandshakesOk(s) && NoncesOk(s) && DoneOk(s) && OrphansOk(s)
  }

  lemma InvInit(s: State)
    requires Init(s)
    ensures Inv(s)
  {
  }

  lemma Counters(s: State)
    requires FanoutOk(s) && ScopesOk(s)
    ensures s.currentTx + 1 !in s.txs && s.currentEvent + 1 !in s.jobs && s.currentEvent + 1 !in s.events
  {
  }

  lemma InvKept(s: State, x: Step)
    requires Inv(s) && Enabled(s, x)
    ensures Inv(Apply(s, x)) && Evolves(s, Apply(s, x))
  {
    hide DeliveryOk, FanoutOk, SignupsOk, ScopesOk, StoreOk, StatusesOk, HandshakesOk, NoncesOk, DoneOk, OrphansOk,
      Enabled, Evolves, DoneTargetsOk, Apply;
    Counters(s);
    DoneTargets(s);
    StepEvolves(s, x);
    DeliveryKept(s, x);
    FanoutKept(s, x);
    SignupsKept(s, x);
    ScopesKept(s, x);
    StoreKept(s, x);
    StatusesKept(s, x);
    HandshakesKept(s, x);
    NoncesKept(s, x);
    DoneKept(s, x);
    OrphansKept(s, x);
  }

  lemma {:induction false} RunInv(r: Run, i: nat)
    requires IsRun(r) && i < |r.states|
    ensures Inv(r.states[i])
  {
    hide Inv, Init, Enabled, Apply;
    if i == 0 {
      InvInit(r.states[0]);
    } else {
      RunInv(r, i - 1);
      InvKept(r.states[i - 1], r.steps[i - 1]);
    }
  }

  // ---- timers and attempts ----

  /**
   * At most one of {just stored, pending timer, running attempt} for each task; the registry holds
   * exactly the pending timer; no `addTimeout` or `deleteTimeout` was ever refused.
   */
  lemma OneCarrier(r: Run, i: nat, t: Task)
    requires IsRun(r) && i < |r.states|
    ensures var v := ViewOf(r.states[i], t);
      && Carriers(v) <= 1
      && v.slot.timers == (if v.slot.registered.Some? then {v.slot.registered.value} else {})
      && v.slot.errors == 0
      && (Carriers(v) == 1 ==> v.standing == Waiting)
  {
    RunInv(r, i);
    assert ViewOk(ViewOf(r.states[i], t));
  }

  /**
   * Each task is attempted at most `maxTries` times. It is given up exactly when no try is left,
   * after `maxTries` failures; until then the failures caught and the stored tries add up.
   */
  lemma TriesAddUp(r: Run, i: nat, t: Task)
    requires IsRun(r) && i < |r.states| && StandingOf(r.states[i], t) != Absent
    ensures var v := ViewOf(r.states[i], t);
      && v.flight.posts <= v.flight.starts <= v.max
      && v.flight.failures <= v.max
      && (v.standing == Standing.Lost <==> v.tries == 0)
      && (v.standing == Standing.Lost ==> v.flight.failures == v.max)
      && (Carriers(v) == 1 ==>
            v.flight.failures + v.tries ==
            v.max + if v.flight.attempts != [] && v.flight.attempts[0].Retrying? then 1 else 0)
  {
    RunInv(r, i);
    assert ViewOk(ViewOf(r.states[i], t));
  }

  /** A step at which storage failed the task outside any try block. */
  predicate Drops(x: Step, t: Task) {
    x.Go? && x.t == t && (x.move.ReadFails? || x.move.RetryFails?)
  }

  lemma MoveDrops(s: State, t: Task, k: nat, x: Move)
    requires StandingOf(s, t) == Waiting && Enabled(s, Go(t, k, x))
    ensures FlightOf(Apply(s, Go(t, k, x)), t).dropped <==> FlightOf(s, t).dropped || Drops(Go(t, k, x), t)
  {
  }

  lemma HandlingDrops(s: State, e: Id, x: Handling, t: Task)
    requires HandlingEnabled(s, e, x) && (StandingOf(s, t) == Absent ==> !FlightOf(s, t).dropped)
    ensures FlightOf(ApplyHandling(s, e, x), t).dropped == FlightOf(s, t).dropped
  {
    hide JobAfter, AllScheduled;
  }

  lemma SigningDrops(s: State, g: Id, x: Signing, t: Task)
    requires SigningEnabled(s, g, x) && (StandingOf(s, t) == Absent ==> !FlightOf(s, t).dropped)
    ensures FlightOf(ApplySigning(s, g, x), t).dropped == FlightOf(s, t).dropped
  {
  }

  lemma OtherDrops(s: State, x: Step, t: Task)
    requires Enabled(s, x) && (x.Go? ==> x.t != t) && !x.Handle? && !x.Sign?
    ensures FlightOf(Apply(s, x), t).dropped == FlightOf(s, t).dropped
  {
    hide EffectOf, PayloadOf, MoveEnabled, Fly;
  }

  lemma DropsBy(s: State, x: Step, t: Task)
    requires DeliveryOk(s) && Enabled(s, x)
    ensures FlightOf(Apply(s, x), t).dropped <==> FlightOf(s, t).dropped || Drops(x, t)
  {
    assert StandingOf(s, t) == Absent ==> !FlightOf(s, t).dropped by {
      assert ViewOk(ViewOf(s, t));
    }
    hide DeliveryOk, Fits, StandingOf, FlightOf, ApplyHandling, ApplySigning, EffectOf, PayloadOf;
    if x.Handle? {
      HandlingDrops(s, x.e, x.handling, t);
    } else if x.Sign? {
      SigningDrops(s, x.g, x.signing, t);
    } else if x.Go? && x.t == t {
      MoveKeeps(s, t, x.k, x.move);
      MoveDrops(s, t, x.k, x.move);
    } else {
      OtherDrops(s, x, t);
    }
  }

  /** The history flag of a task means that storage failed it in the run. */
  lemma {:induction false} DroppedIff(r: Run, j: nat, t: Task)
    requires IsRun(r) && j < |r.states|
    ensures FlightOf(r.states[j], t).dropped <==> exists k :: 0 <= k < j && Drops(r.steps[k], t)
  {
    hide Apply, Drops, FanoutOk, SignupsOk, ScopesOk, StoreOk, StatusesOk, HandshakesOk, NoncesOk, DoneOk, OrphansOk,
      DeliveryOk;
    if j > 0 {
      DroppedIff(r, j - 1, t);
      RunInv(r, j - 1);
      DropsBy(r.states[j - 1], r.steps[j - 1], t);
    }
  }

  /**
   * No stuck work: waiting work is carried by someone, unless it is the handshake of an expired
   * subscription or storage failed this very task; failures elsewhere do not matter.
   */
  lemma NoStuckWork(r: Run, i: nat, t: Task)
    requires IsRun(r) && i < |r.states| && StandingOf(r.states[i], t) == Waiting
    ensures Carriers(ViewOf(r.states[i], t)) == 1 || (exists k :: 0 <= k < i && Drops(r.steps[k], t))
            || (t.Handshake? && Expired(r.states[i].subs[t.sub], r.states[i].now))
  {
    RunInv(r, i);
    DroppedIff(r, i, t);
    assert ViewOk(ViewOf(r.states[i], t));
  }

  // ---- statuses ----

  predicate SubReaches(a: SubscriptionStatus, b: SubscriptionStatus) {
    a == b || a.Inactive? || (a.Active? && b.Done?)
  }

  /** Between two points of a run, statuses only move forward and nothing else but counters changes. */
  ghost predicate Later(s: State, s': State) {
    && s.now <= s'.now
    && (forall i :: i in s.subs ==>
                      && i in s'.subs
                      && SubReaches(s.subs[i].status, s'.subs[i].status)
                      && s'.subs[i] == s.subs[i].(status := s'.subs[i].status, triesLeft := s'.subs[i].triesLeft,
                                                  nextNonce := s'.subs[i].nextNonce)
                      && s'.subs[i].triesLeft <= s.subs[i].triesLeft)
    && (forall n :: n in s.notifs ==> n in s'.notifs && NotifEvolves(s.notifs[n], s'.notifs[n]))
  }

  lemma EvolvesThenLater(s: State, s': State, s'': State)
    requires Later(s, s') && Evolves(s', s'') && s'.now <= s''.now
    ensures Later(s, s'')
  {
  }

  lemma ClockAdvances(s: State, x: Step)
    requires Enabled(s, x)
    ensures s.now <= Apply(s, x).now
  {
  }

  lemma {:induction false} StatusesOnlyMoveForward(r: Run, i: nat, j: nat)
    requires IsRun(r) && i <= j < |r.states|
    ensures Later(r.states[i], r.states[j])
  {
    hide Inv, Init, Enabled, Apply, Evolves;
    if i < j {
      StatusesOnlyMoveForward(r, i, j - 1);
      RunInv(r, j - 1);
      InvKept(r.states[j - 1], r.steps[j - 1]);
      ClockAdvances(r.states[j - 1], r.steps[j - 1]);
      hide Later;
      EvolvesThenLater(r.states[i], r.states[j - 1], r.states[j]);
    }
  }

  /** Each step moves a status at most one edge: Inactive-Active, Inactive-Rejected, Active-Done. */
  lemma StatusesMoveOneEdge(r: Run, i: nat)
    requires IsRun(r) && i < |r.steps|
    ensures Evolves(r.states[i], r.states[i + 1])
  {
    hide Inv, Init, Enabled, Apply, Evolves;
    RunInv(r, i);
    InvKept(r.states[i], r.steps[i]);
  }

  /** A notification in a final status is never POSTed: the step that posts it finds it unsettled. */
  lemma OnlyUnsettledIsPosted(r: Run, i: nat, p: nat)
    requires IsRun(r) && i < |r.steps|
    requires |r.states[i].log| <= p < |r.states[i + 1].log| && r.states[i + 1].log[p].NotificationPosted?
    ensures var n := r.states[i + 1].log[p].notif; n in r.states[i].notifs && r.states[i].notifs[n].status == Unsettled
  {
    hide Inv;
    RunInv(r, i);
    PostingStep(r.states[i], r.steps[i], p);
  }

  lemma PostingStep(s: State, x: Step, p: nat)
    requires Inv(s) && Enabled(s, x) && |s.log| <= p < |Apply(s, x).log| && Apply(s, x).log[p].NotificationPosted?
    ensures var n := Apply(s, x).log[p].notif; n in s.notifs && s.notifs[n].status == Unsettled
  {
    hide DeliveryOk, FanoutOk, SignupsOk, ScopesOk, StoreOk, StatusesOk, HandshakesOk, NoncesOk, DoneOk, OrphansOk,
      HandlingEnabled, PayloadOf, Fits;
    match x
    case Go(t, k, move) => MoveKeeps(s, t, k, move);
    case _ =>
  }

  // ---- handshakes ----

  /**
   * Whatever was POSTed to a subscriber was preceded by a handshake of that subscription that was
   * answered with 200 and its own secret, and carries the event and nonce of its notification.
   */
  lemma HandshakeFirst(r: Run, i: nat, p: nat)
    requires IsRun(r) && i < |r.states| && p < |r.states[i].log| && r.states[i].log[p].NotificationPosted?
    ensures Proved(r.states[i].log[..p], Handshake(r.states[i].log[p].body.sub))
    ensures BodyOk(r.states[i], r.states[i].log[p])
  {
    hide Proved, BodyOk, DeliveryOk, FanoutOk, SignupsOk, ScopesOk, StoreOk, StatusesOk, NoncesOk, DoneOk, OrphansOk;
    RunInv(r, i);
  }

  // ---- fan-out ----

  ghost predicate Notified(s: State, e: Id, i: Id) {
    exists n :: n in s.notifs && s.notifs[n].event == e && s.notifs[n].sub == i
  }

  /** In any state, an event has at most one notification per subscription. */
  lemma AtMostOneNotification(r: Run, k: nat, n: Id, n': Id)
    requires IsRun(r) && k < |r.states| && n in r.states[k].notifs && n' in r.states[k].notifs
    requires r.states[k].notifs[n].event == r.states[k].notifs[n'].event
             && r.states[k].notifs[n].sub == r.states[k].notifs[n'].sub
    ensures n == n'
  {
    hide DeliveryOk, SignupsOk, ScopesOk, StoreOk, StatusesOk, HandshakesOk, NoncesOk, DoneOk, OrphansOk;
    RunInv(r, k);
    assert NotifOk(r.states[k], n) && NotifOk(r.states[k], n');
  }

  /** A processed event has notified exactly the subscriptions it read at its fetch. */
  lemma ProcessedNotified(s: State, e: Id, i: Id)
    requires FanoutOk(s) && e in s.events && s.events[e].processed
    ensures e in s.jobs && (i in s.jobs[e].affected <==> Notified(s, e, i))
  {
  }

  ghost predicate ReadingKept(a: Job, b: Job) {
    !b.phase.Fetching? && (b.phase.Abandoned? || (b.affected == a.affected && !a.phase.Abandoned?))
  }

  /** What an event read stays as it is, unless its handler is abandoned; and that is for good. */
  lemma JobReadingStays(s: State, e: Id, x: Handling)
    requires HandlingEnabled(s, e, x) && JobOk(s, e, s.jobs[e]) && !s.jobs[e].phase.Fetching?
    ensures ReadingKept(s.jobs[e], JobAfter(s, e, x))
  {
  }

  lemma ReadingStays(s: State, x: Step, e: Id)
    requires Inv(s) && Enabled(s, x) && e in s.jobs && !s.jobs[e].phase.Fetching?
    ensures var s' := Apply(s, x); e in s'.jobs && ReadingKept(s.jobs[e], s'.jobs[e])
  {
    hide DeliveryOk, SignupsOk, ScopesOk, StoreOk, StatusesOk, HandshakesOk, NoncesOk, DoneOk, OrphansOk, JobOk,
      HandlingEnabled, JobAfter, ApplyHandling, ApplySigning, Perform, EffectOf, PayloadOf;
    Counters(s);
    match x
    case Handle(e', handling) =>
      HandlingBooks(s, e', handling);
      if e' == e { JobReadingStays(s, e, handling); }
    case _ =>
  }

  lemma {:induction false} ReadingLasts(r: Run, k: nat, j: nat, e: Id)
    requires IsRun(r) && k <= j < |r.states| && e in r.states[k].jobs && !r.states[k].jobs[e].phase.Fetching?
    ensures e in r.states[j].jobs && ReadingKept(r.states[k].jobs[e], r.states[j].jobs[e])
  {
    hide Inv, Init, Enabled, Apply;
    if k < j {
      ReadingLasts(r, k, j - 1, e);
      RunInv(r, j - 1);
      ReadingStays(r.states[j - 1], r.steps[j - 1], e);
    }
  }

  /**
   * Fan-out is exact: once processed, an event has a notification for each subscription that matched
   * by type, scope, Active and unexpired when it fetched, and for no other.
   */
  lemma FanoutExact(r: Run, k: nat, j: nat, e: Id, i: Id)
    requires IsRun(r) && k < j < |r.states| && r.steps[k] == Handle(e, Fetch)
    requires e in r.states[j].events && r.states[j].events[e].processed
    ensures e in r.states[k].jobs
    ensures Notified(r.states[j], e, i) <==> i in Matched(r.states[k].subs, r.states[k].jobs[e].tx, r.states[k].now)
  {
    FetchStep(r, k, e);
    ReadingLasts(r, k + 1, j, e);
    RunInv(r, j);
    hide Init, Enabled, Apply, Notified, Matched;
    ProcessedNotified(r.states[j], e, i);
    assert EventOk(r.states[j].jobs[e], r.states[j].events[e]);
  }

  lemma FetchStep(r: Run, k: nat, e: Id)
    requires IsRun(r) && k < |r.steps| && r.steps[k] == Handle(e, Fetch)
    ensures e in r.states[k].jobs && e in r.states[k + 1].jobs && !r.states[k + 1].jobs[e].phase.Fetching?
    ensures r.states[k + 1].jobs[e].affected.Keys == Matched(r.states[k].subs, r.states[k].jobs[e].tx, r.states[k].now)
  {
  }

  // ---- terminal status ----

  /** `e` reports a terminal status of the scope, all its notifications exist, and its handler marks as done. */
  ghost predicate TerminalFor(s: State, e: Id, scope: Id) {
    && e in s.jobs && e in s.events && Marks(s.jobs[e], scope)
    && s.events[e].scope == scope && s.events[e].processed && Terminal(s.events[e].payload.status)
  }

  /** Past its fetch, and not abandoned. */
  predicate Fetched(jobs: map<Id, Job>, e: Id) {
    e in jobs && !jobs[e].phase.Fetching? && !jobs[e].phase.Abandoned?
  }

  /** A handler gets past its fetch only by fetching. */
  lemma FetchesOnce(s: State, x: Step, e: Id)
    requires Inv(s) && Enabled(s, x) && Fetched(Apply(s, x).jobs, e) && !Fetched(s.jobs, e)
    ensures x == Handle(e, Fetch)
  {
    hide DeliveryOk, SignupsOk, ScopesOk, StoreOk, StatusesOk, HandshakesOk, NoncesOk, DoneOk, OrphansOk, JobOk,
      ApplySigning, Perform, EffectOf, PayloadOf, Matched, NoncesOf;
    Counters(s);
  }

  lemma {:induction false} FetchedBefore(r: Run, j: nat, e: Id) returns (k: nat)
    requires IsRun(r) && j < |r.states| && Fetched(r.states[j].jobs, e)
    ensures k < j && r.steps[k] == Handle(e, Fetch)
  {
    hide Inv, Enabled, Apply;
    if Fetched(r.states[j - 1].jobs, e) {
      k := FetchedBefore(r, j - 1, e);
    } else {
      k := j - 1;
      RunInv(r, k);
      FetchesOnce(r.states[k], r.steps[k], e);
    }
  }

  /** At step `k` the event fetched, and subscription `i` was among its matches. */
  ghost predicate FetchedFor(r: Run, k: nat, e: Id, i: Id) {
    && k < |r.steps| && k < |r.states| && r.steps[k] == Handle(e, Fetch) && e in r.states[k].jobs
    && i in Matched(r.states[k].subs, r.states[k].jobs[e].tx, r.states[k].now)
  }

  /**
   * A subscription turns Done only after the handler of a terminal event of its scope has created all
   * its notifications. It has one among them, with the terminal payload, if and only if it was Active
   * and unexpired when that event fetched: a handshake answered later misses the terminal status.
   */
  lemma DoneAfterTerminal(r: Run, j: nat, i: Id)
    requires IsRun(r) && j < |r.states| && i in r.states[j].subs && r.states[j].subs[i].status == Done
    ensures var s := r.states[j];
      exists e: Id, k: nat :: k < j && r.steps[k] == Handle(e, Fetch)
        && TerminalFor(s, e, s.subs[i].scope) && (Notified(s, e, i) <==> FetchedFor(r, k, e, i))
  {
    var s := r.states[j];
    var e := MarkedBy(r, j, i);
    hide Inv, Init, Enabled, Apply, Notified, Matched, TerminalFor;
    var k := FetchedBefore(r, j, e);
    FanoutExact(r, k, j, e, i);
    assert Notified(s, e, i) <==> FetchedFor(r, k, e, i);
  }

  lemma MarkedBy(r: Run, j: nat, i: Id) returns (e: Id)
    requires IsRun(r) && j < |r.states| && i in r.states[j].subs && r.states[j].subs[i].status == Done
    ensures TerminalFor(r.states[j], e, r.states[j].subs[i].scope) && Fetched(r.states[j].jobs, e)
    ensures e in r.states[j].events && r.states[j].events[e].processed
  {
    hide DeliveryOk, SignupsOk, ScopesOk, StoreOk, StatusesOk, HandshakesOk, NoncesOk, OrphansOk;
    RunInv(r, j);
    var s := r.states[j];
    e :| e in s.jobs && Marks(s.jobs[e], s.subs[i].scope);
    assert JobOk(s, e, s.jobs[e]) && EventOk(s.jobs[e], s.events[e]);
  }

  /**
   * Every subscription that matched when a terminal event fetched has that event's notification by the
   * time the event's own handler marks anything as done.
   */
  lemma TerminalReachesReaders(r: Run, k: nat, j: nat, e: Id, i: Id)
    requires IsRun(r) && k < j < |r.states| && r.steps[k] == Handle(e, Fetch) && e in r.states[k].jobs
    requires i in Matched(r.states[k].subs, r.states[k].jobs[e].tx, r.states[k].now)
    requires e in r.states[j].jobs && (r.states[j].jobs[e].phase.FindingDone? || r.states[j].jobs[e].phase.MarkingDone?)
    ensures Notified(r.states[j], e, i) && e in r.states[j].events && Terminal(r.states[j].events[e].payload.status)
  {
    assert e in r.states[j].events && JobOk(r.states[j], e, r.states[j].jobs[e])
           && EventOk(r.states[j].jobs[e], r.states[j].events[e]) by {
      hide DeliveryOk, SignupsOk, ScopesOk, StoreOk, StatusesOk, HandshakesOk, NoncesOk, DoneOk, OrphansOk;
      RunInv(r, j);
    }
    hide Init, Enabled, Apply, Notified, Matched;
    FanoutExact(r, k, j, e, i);
  }

  /** `e` is the only event of the scope that reports a terminal status. */
  ghost predicate OnlyTerminal(s: State, e: Id, scope: Id) {
    forall e' :: e' in s.events && s.events[e'].scope == scope && Terminal(s.events[e'].payload.status) ==> e' == e
  }

  /**
   * A subscription that matched when the only terminal event of its scope fetched has that event's
   * notification before it turns Done.
   */
  lemma TerminalBeforeDone(r: Run, k: nat, j: nat, e: Id, i: Id)
    requires IsRun(r) && k < j < |r.states| && FetchedFor(r, k, e, i)
    requires i in r.states[j].subs && r.states[j].subs[i].status == Done
    requires OnlyTerminal(r.states[j], e, r.states[j].subs[i].scope)
    ensures Notified(r.states[j], e, i) && e in r.states[j].events && Terminal(r.states[j].events[e].payload.status)
  {
    var e' := MarkedBy(r, j, i);
    assert e' == e;
    hide IsRun, Notified, Matched, OnlyTerminal;
    FanoutExact(r, k, j, e, i);
  }

  /**
   * Marking a subscription as done cancels no delivery: every notification keeps its timer, its
   * attempts and its tries, and each attempt can make the same moves as before, to the same effect.
   */
  lemma DoneDoesNotCancel(r: Run, k: nat, e: Id, i: Id, n: Id)
    requires IsRun(r) && k < |r.steps| && r.steps[k] == Handle(e, MarkDone(i))
    ensures var s, s', t := r.states[k], r.states[k + 1], Notify(n);
      && ViewOf(s', t) == ViewOf(s, t)
      && forall a: nat, move :: Enabled(s, Go(t, a, move)) ==>
           Enabled(s', Go(t, a, move))
           && EffectOf(s', t, FlightOf(s', t).attempts[a], move) == EffectOf(s, t, FlightOf(s, t).attempts[a], move)
  {
    MarkingChanges(r.states[k], e, i);
    hide IsRun;
    assert r.states[k + 1] == Apply(r.states[k], Handle(e, MarkDone(i))) by { StepOf(r, k); }
    hide Apply;
  }

  lemma StepOf(r: Run, k: nat)
    requires IsRun(r) && k < |r.steps|
    ensures Enabled(r.states[k], r.steps[k]) && r.states[k + 1] == Apply(r.states[k], r.steps[k])
  {
  }

  lemma MarkingChanges(s: State, e: Id, i: Id)
    requires Enabled(s, Handle(e, MarkDone(i)))
    ensures var s' := Apply(s, Handle(e, MarkDone(i)));
      s' == s.(subs := PutStatus(s.subs, i, Done), jobs := s'.jobs)
  {
  }

  /** How the notification stands: carried on unless storage failed it, or its status has its cause. */
  ghost predicate Accounted(r: Run, k: nat, n: Id)
    requires k < |r.states| && k <= |r.steps| && n in r.states[k].notifs
  {
    var s := r.states[k];
    match s.notifs[n].status
    case Unsettled =>
      Carriers(ViewOf(s, Notify(n))) == 1 || exists h :: 0 <= h < k && Drops(r.steps[h], Notify(n))
    case Acknowledged => Proved(s.log, Notify(n))
    case Failed => FlightOf(s, Notify(n)).failures == s.cfg.notificationTries
    case Orphaned => s.notifs[n].sub in s.subs && Expired(s.subs[s.notifs[n].sub], s.now)
  }

  /**
   * The fate of a notification: carried on unless storage failed it, acknowledged, failed after all
   * tries, or its subscription expired.
   */
  lemma FateOfNotification(r: Run, k: nat, n: Id)
    requires IsRun(r) && k < |r.states| && n in r.states[k].notifs
    ensures Accounted(r, k, n)
  {
    RunInv(r, k);
    DroppedIff(r, k, Notify(n));
    assert ViewOk(ViewOf(r.states[k], Notify(n)));
    assert r.states[k].notifs[n].status == Orphaned ==> Abandonable(r.states[k], n);
  }

  /** So the terminal notification of a Done subscription is delivered like any other. */
  lemma TerminalIsDelivered(r: Run, k: nat, j: nat, e: Id, i: Id) returns (n: Id)
    requires IsRun(r) && k < j < |r.states| && FetchedFor(r, k, e, i)
    requires i in r.states[j].subs && r.states[j].subs[i].status == Done
    requires OnlyTerminal(r.states[j], e, r.states[j].subs[i].scope)
    ensures n in r.states[j].notifs && r.states[j].notifs[n].event == e && r.states[j].notifs[n].sub == i
            && Accounted(r, j, n)
  {
    hide FetchedFor, OnlyTerminal, Accounted;
    TerminalBeforeDone(r, k, j, e, i);
    n :| n in r.states[j].notifs && r.states[j].notifs[n].event == e && r.states[j].notifs[n].sub == i;
    FateOfNotification(r, j, n);
  }

  // ---- transactions ----

  /**
   * Event ids list each transaction's statuses in the order of the callbacks, and each event's payload
   * carries the status that its handler tests for being terminal.
   */
  lemma EventsInCallbackOrder(r: Run, k: nat, tx: Id)
    requires IsRun(r) && k < |r.states| && tx in r.states[k].txs
    ensures var s := r.states[k];
      && s.txs[tx].emitted == StatusesOf(s.events, s.currentEvent, tx)
      && s.events.Keys == s.jobs.Keys
      && (forall e :: e in s.events ==> 1 <= e <= s.currentEvent && s.events[e].payload.status == s.jobs[e].status)
  {
    hide DeliveryOk, SignupsOk, ScopesOk, StoreOk, HandshakesOk, NoncesOk, DoneOk, OrphansOk;
    RunInv(r, k);
    var s := r.states[k];
    assert forall e :: e in s.events ==> e in s.jobs && EventOk(s.jobs[e], s.events[e]);
  }

  /**
   * The store holds exactly the transactions without a finished terminal handler; the unsubscribe
   * callback of each of the others was called once, and ids are counted up without reuse.
   */
  lemma StoreExact(r: Run, k: nat, tx: Id)
    requires IsRun(r) && k < |r.states| && tx in r.states[k].txs
    ensures var s := r.states[k];
      && (tx in s.store <==> !Ended(s, tx))
      && s.txs[tx].unsubs == (if tx in s.store then 0 else 1)
      && s.currentTx + 1 !in s.txs
  {
    hide DeliveryOk, SignupsOk, StatusesOk, HandshakesOk, NoncesOk, DoneOk, OrphansOk;
    RunInv(r, k);
    Counters(r.states[k]);
  }

  // ---- nonces ----

  ghost predicate HandlesAt(r: Run, k: nat, x: Handling) {
    k < |r.steps| && k < |r.states| && r.steps[k].Handle? && r.steps[k].handling == x
      && r.steps[k].e in r.states[k].jobs
  }

  /** Step `k` reads the nonce of `i` while another event has read it and not yet bumped it. */
  ghost predicate OverlappingFetch(r: Run, k: nat, i: Id) {
    HandlesAt(r, k, Fetch) && i in Overlapping(r.states[k], r.steps[k].e)
  }

  /** The same, or a later event has read it already. */
  ghost predicate RacingFetch(r: Run, k: nat, i: Id) {
    HandlesAt(r, k, Fetch) && i in Racing(r.states[k], r.steps[k].e)
  }

  /** Step `k` fails to bump the nonce of `i`. */
  ghost predicate FailedBump(r: Run, k: nat, i: Id) {
    HandlesAt(r, k, BumpFails) && i in r.states[k].jobs[r.steps[k].e].affected
  }

  lemma FlagsBy(s: State, x: Step, i: Id)
    requires Enabled(s, x)
    ensures x.Handle? ==> x.e in s.jobs
    ensures i in Apply(s, x).overlapped <==>
            i in s.overlapped || (x.Handle? && x.handling.Fetch? && i in Overlapping(s, x.e))
    ensures i in Apply(s, x).raced <==> i in s.raced || (x.Handle? && x.handling.Fetch? && i in Racing(s, x.e))
    ensures i in Apply(s, x).unbumped <==>
            i in s.unbumped || (x.Handle? && x.handling.BumpFails? && i in s.jobs[x.e].affected)
  {
    hide EffectOf, PayloadOf, JobAfter, Overlapping, Racing;
  }

  /** The history flags mean that the run has such a step. */
  lemma {:induction false} FlagsIff(r: Run, j: nat, i: Id)
    requires IsRun(r) && j < |r.states|
    ensures i in r.states[j].overlapped <==> exists k :: 0 <= k < j && OverlappingFetch(r, k, i)
    ensures i in r.states[j].raced <==> exists k :: 0 <= k < j && RacingFetch(r, k, i)
    ensures i in r.states[j].unbumped <==> exists k :: 0 <= k < j && FailedBump(r, k, i)
  {
    hide Overlapping, Racing, Apply, Enabled;
    if j > 0 {
      var s, s' := r.states[j - 1], r.states[j];
      FlagsIff(r, j - 1, i);
      FlagsBy(s, r.steps[j - 1], i);
      assert i in s'.overlapped <==> i in s.overlapped || OverlappingFetch(r, j - 1, i);
      assert i in s'.raced <==> i in s.raced || RacingFetch(r, j - 1, i);
      assert i in s'.unbumped <==> i in s.unbumped || FailedBump(r, j - 1, i);
    }
  }

  lemma RunNonce(r: Run, j: nat, i: Id)
    requires IsRun(r) && j < |r.states|
    ensures NonceOk(r.states[j], i)
  {
    hide DeliveryOk, FanoutOk, SignupsOk, ScopesOk, StoreOk, StatusesOk, HandshakesOk, DoneOk, OrphansOk, NonceOk;
    RunInv(r, j);
  }

  /**
   * The events of a subscription read distinct nonces if no fetch of it fell between another event's
   * fetch and bump, and, as long as no bump of it fails, only if.
   */
  lemma NoncesDistinctIff(r: Run, j: nat, i: Id)
    requires IsRun(r) && j < |r.states|
    ensures (forall k :: 0 <= k < j ==> !OverlappingFetch(r, k, i)) ==> Distinct(r.states[j], i)
    ensures (forall k :: 0 <= k < j ==> !FailedBump(r, k, i)) && Distinct(r.states[j], i) ==>
              forall k :: 0 <= k < j ==> !OverlappingFetch(r, k, i)
  {
    hide Distinct, Ordered, Gapless, Exclusive, Bounded, OverlappingFetch, RacingFetch, FailedBump;
    RunNonce(r, j, i);
    FlagsIff(r, j, i);
  }

  /**
   * The nonces of a subscription grow strictly with event ids if no fetch of it raced, and, as long
   * as no bump of it fails, only if.
   */
  lemma NoncesOrderedIff(r: Run, j: nat, i: Id)
    requires IsRun(r) && j < |r.states|
    ensures (forall k :: 0 <= k < j ==> !RacingFetch(r, k, i)) ==> Ordered(r.states[j], i)
    ensures (forall k :: 0 <= k < j ==> !FailedBump(r, k, i)) && Ordered(r.states[j], i) ==>
              forall k :: 0 <= k < j ==> !RacingFetch(r, k, i)
  {
    hide Distinct, Ordered, Gapless, Exclusive, Bounded, OverlappingFetch, RacingFetch, FailedBump;
    RunNonce(r, j, i);
    FlagsIff(r, j, i);
  }

  /** A notification of subscription `i` carries nonce `m`. */
  ghost predicate Carries(s: State, i: Id, m: int, n: Id) {
    n in s.notifs && s.notifs[n].sub == i && s.notifs[n].nonce == m
  }

  /** Every event that has read the subscription is processed. */
  ghost predicate Settled(s: State, i: Id) {
    forall e :: Issued(s, e, i) ==> e in s.events && s.events[e].processed
  }

  /**
   * If no fetch of a subscription overlapped, then, when the events that read it are processed, its
   * notifications carry exactly the nonces from the first to `nextNonce - 1`, one notification each.
   * The first is 1 where the request was answered with nonce 0.
   */
  lemma NoncesExact(r: Run, j: nat, i: Id, m: int)
    requires IsRun(r) && j < |r.states| && i in r.states[j].subs && Settled(r.states[j], i)
    requires forall k :: 0 <= k < j ==> !OverlappingFetch(r, k, i)
    ensures var s := r.states[j];
      && ((exists n :: Carries(s, i, m, n)) <==> FirstNonce(s, i) <= m < s.subs[i].nextNonce)
      && (forall n, n' :: Carries(s, i, m, n) && Carries(s, i, m, n') ==> n == n')
  {
    hide DeliveryOk, SignupsOk, ScopesOk, StoreOk, StatusesOk, HandshakesOk, DoneOk, OrphansOk, JobOk, Exclusive,
      Issued, Nonce, FirstNonce, Used, OverlappingFetch, RacingFetch, FailedBump, Settled, IsRun;
    RunInv(r, j);
    FlagsIff(r, j, i);
    var s := r.states[j];
    assert NonceOk(s, i);
    forall n | Carries(s, i, m, n) ensures FirstNonce(s, i) <= m < s.subs[i].nextNonce {
      CarriedIsIssued(s, n);
    }
    forall n, n' | Carries(s, i, m, n) && Carries(s, i, m, n') ensures n == n' {
      CarriedOnce(s, n, n');
    }
    if FirstNonce(s, i) <= m < s.subs[i].nextNonce {
      assert Used(s, i, m);
      UsedIsCarried(s, i, m);
    }
  }

  /** If no fetch of it raced, the later event's notification has the larger nonce, and conversely. */
  lemma NoncesFollowEvents(r: Run, j: nat, n: Id, n': Id)
    requires IsRun(r) && j < |r.states| && n in r.states[j].notifs && n' in r.states[j].notifs
    requires r.states[j].notifs[n].sub == r.states[j].notifs[n'].sub
    requires forall k :: 0 <= k < j ==> !RacingFetch(r, k, r.states[j].notifs[n].sub)
    ensures var a, b := r.states[j].notifs[n], r.states[j].notifs[n']; a.nonce < b.nonce <==> a.event < b.event
  {
    hide DeliveryOk, FanoutOk, SignupsOk, ScopesOk, StoreOk, StatusesOk, HandshakesOk, DoneOk, OrphansOk, Exclusive,
      Gapless, Issued, Bounded, OverlappingFetch, RacingFetch, FailedBump, IsRun;
    RunInv(r, j);
    FlagsIff(r, j, r.states[j].notifs[n].sub);
    assert NonceOk(r.states[j], r.states[j].notifs[n].sub);
    CarriedIsIssued(r.states[j], n);
    CarriedIsIssued(r.states[j], n');
  }

  // ---- the nonce of the response ----

  /** The subscription was made by a request that was answered with nonce 0. */
  ghost predicate FromRequest(s: State, i: Id) {
    i in s.subs && s.subs[i].origin in s.signups && s.signups[s.subs[i].origin].initial
  }

  ghost predicate AnswersOk(s: State) {
    forall p :: 0 <= p < |s.log| && s.log[p].InitialResponse? ==> s.log[p].nonce == 0 && FromRequest(s, s.log[p].sub)
  }

  lemma FromRequestStays(s: State, x: Step, i: Id)
    requires Enabled(s, x) && Evolves(s, Apply(s, x)) && FromRequest(s, i)
    ensures FromRequest(Apply(s, x), i)
  {
  }

  /** The log only grows, and a response is logged only for the subscription of its own request. */
  lemma LogGrows(s: State, x: Step, p: nat)
    requires SignupsOk(s) && ScopesOk(s) && Enabled(s, x) && p < |Apply(s, x).log|
    ensures |s.log| <= |Apply(s, x).log| && (p < |s.log| ==> Apply(s, x).log[p] == s.log[p])
    ensures p >= |s.log| && Apply(s, x).log[p].InitialResponse? ==>
            Apply(s, x).log[p].nonce == 0 && FromRequest(s, Apply(s, x).log[p].sub)
  {
    if x.Sign? {
      assert SignupOk(s, x.g, s.signups[x.g]) && ScopeOk(s, s.signups[x.g]);
    } else if x.Go? {
      MoveAnswersNobody(s, x.t, FlightOf(s, x.t).attempts[x.k], x.move);
    }
    hide HandlingEnabled, JobAfter, PayloadOf, SignupsOk, ScopesOk, EffectOf, MoveEnabled;
  }

  lemma MoveAnswersNobody(s: State, t: Task, phase: Phase, x: Move)
    requires MoveEnabled(t, phase, x)
    ensures forall p :: 0 <= p < |EffectOf(s, t, phase, x).log| ==> !EffectOf(s, t, phase, x).log[p].InitialResponse?
  {
  }

  lemma {:induction false} RunAnswers(r: Run, j: nat)
    requires IsRun(r) && j < |r.states|
    ensures AnswersOk(r.states[j])
  {
    hide Enabled, Apply, Evolves, DeliveryOk, FanoutOk, SignupsOk, ScopesOk, StoreOk, StatusesOk, HandshakesOk,
      NoncesOk, DoneOk, OrphansOk, FromRequest;
    if j > 0 {
      var s, s', x := r.states[j - 1], r.states[j], r.steps[j - 1];
      RunAnswers(r, j - 1);
      RunInv(r, j - 1);
      InvKept(s, x);
      forall p | 0 <= p < |s'.log| && s'.log[p].InitialResponse?
        ensures s'.log[p].nonce == 0 && FromRequest(s', s'.log[p].sub)
      {
        LogGrows(s, x, p);
        FromRequestStays(s, x, s'.log[p].sub);
      }
    }
  }

  /** A request is answered with nonce 0, and no notification ever carries that nonce again, racing or not. */
  lemma ResponseNonceIsReserved(r: Run, j: nat, p: nat, n: Id)
    requires IsRun(r) && j < |r.states| && p < |r.states[j].log| && r.states[j].log[p].InitialResponse?
    requires n in r.states[j].notifs && r.states[j].notifs[n].sub == r.states[j].log[p].sub
    ensures r.states[j].log[p].nonce == 0 < r.states[j].notifs[n].nonce
  {
    RunAnswers(r, j);
    assert FromRequest(r.states[j], r.states[j].log[p].sub);
    hide DeliveryOk, FanoutOk, SignupsOk, ScopesOk, StoreOk, StatusesOk, HandshakesOk, DoneOk, OrphansOk, NonceOk,
      Issued;
    RunInv(r, j);
    CarriedIsIssued(r.states[j], n);
  }

  lemma CarriedIsIssued(s: State, n: Id)
    requires FanoutOk(s) && NoncesOk(s) && n in s.notifs
    ensures var e, i := s.notifs[n].event, s.notifs[n].sub;
      Issued(s, e, i) && Nonce(s, e, i) == s.notifs[n].nonce && i in s.jobs[e].creations
      && i in s.subs && FirstNonce(s, i) <= s.notifs[n].nonce < s.subs[i].nextNonce
      && s.jobs[e].creations[i] == Stored(n)
  {
    var e, i := s.notifs[n].event, s.notifs[n].sub;
    assert NotifOk(s, n);
    assert JobOk(s, e, s.jobs[e]);
    assert CreationOk(s, e, s.jobs[e], i);
    assert NonceOk(s, i) && BoundOk(s, e, i);
  }

  lemma CarriedOnce(s: State, n: Id, n': Id)
    requires FanoutOk(s) && NoncesOk(s) && n in s.notifs && n' in s.notifs && Distinct(s, s.notifs[n].sub)
    requires s.notifs[n].sub == s.notifs[n'].sub && s.notifs[n].nonce == s.notifs[n'].nonce
    ensures n == n'
  {
    CarriedIsIssued(s, n);
    CarriedIsIssued(s, n');
    hide FanoutOk, NoncesOk, Issued;
    assert s.notifs[n].event == s.notifs[n'].event;
  }

  lemma UsedIsCarried(s: State, i: Id, m: int)
    requires FanoutOk(s) && Used(s, i, m) && Settled(s, i)
    ensures exists n :: Carries(s, i, m, n)
  {
    var e :| Issued(s, e, i) && !Open(s, e) && Nonce(s, e, i) == m;
    assert JobOk(s, e, s.jobs[e]) && EventOk(s.jobs[e], s.events[e]);
    assert CreationOk(s, e, s.jobs[e], i);
    assert Carries(s, i, m, s.jobs[e].creations[i].n);
  }
}
