/**
 * What the steps of the protocol do, spelled out on the records and the log: what a subscriber is
 * sent and when, what an answer leads to, what a subscription and an event are made of, and that
 * marking subscriptions as done leaves none out.
 */
module WebhookMeaning {
  import opened Payloads
  import opened Wrappers
  import opened WebhookState
  import opened WebhookSteps
  import opened WebhookDelivery
  import opened WebhookEvolution
  import opened WebhookFanout
  import opened WebhookSignups
  import opened WebhookTransactions
  import opened WebhookHandshakes
  import opened WebhookNonces
  import opened WebhookEndings
  import opened WebhookTheorems

  // ---- attempts ----

  /** The attempt that moves is the only one of its task. */
  lemma OnlyAttempt(r: Run, k: nat, t: Task, a: nat, x: Move)
    requires IsRun(r) && k < |r.steps| && r.steps[k] == Go(t, a, x)
    ensures a == 0 && |FlightOf(r.states[k], t).attempts| == 1
    ensures MoveEnabled(t, FlightOf(r.states[k], t).attempts[0], x)
    ensures StandingOf(r.states[k], t) == Waiting && Enabled(r.states[k], Go(t, 0, x))
    ensures r.states[k + 1] == Apply(r.states[k], Go(t, 0, x))
  {
    hide FanoutOk, SignupsOk, ScopesOk, StoreOk, StatusesOk, HandshakesOk, NoncesOk, DoneOk, OrphansOk, EffectOf,
      Perform;
    RunInv(r, k);
    assert ViewOk(ViewOf(r.states[k], t));
  }

  /** The attempt goes on to the given phase, having logged this and changed no record. */
  ghost predicate GoesTo(s: State, s': State, t: Task, phase: Phase, log: seq<Action>) {
    && FlightOf(s', t).attempts == [phase] && s'.log == s.log + log
    && s'.subs == s.subs && s'.notifs == s.notifs && s'.slots == s.slots
  }

  /** The attempt is over, having logged nothing. */
  ghost predicate IsOver(s: State, s': State, t: Task) {
    FlightOf(s', t).attempts == [] && s'.log == s.log
  }

  // ---- sending a notification ----

  /**
   * Loading decides by expiry alone: at an expired subscription the notification is to be orphaned and
   * nothing is sent; otherwise the event's payload goes to the subscription's URL under the
   * notification's nonce.
   */
  lemma LoadDecides(r: Run, k: nat, n: Id, a: nat)
    requires IsRun(r) && k < |r.steps| && r.steps[k] == Go(Notify(n), a, Load)
    ensures var s := r.states[k];
      n in s.notifs && s.notifs[n].sub in s.subs && s.notifs[n].event in s.events
    ensures var s, s', note := r.states[k], r.states[k + 1], r.states[k].notifs[n];
      var sub, ev := s.subs[note.sub], s.events[note.event];
      if sub.createdAt + sub.ttl <= s.now then
        GoesTo(s, s', Notify(n), Settling(note.triesLeft, Orphan), [])
      else
        GoesTo(s, s', Notify(n), Awaiting(note.triesLeft, ""),
               [NotificationPosted(n, sub.url, Body(note.sub, ev.eventType, ev.scope, ev.payload, note.nonce))])
  {
    OnlyAttempt(r, k, Notify(n), a, Load);
    LoadingFacts(r, k, n);
    hide IsRun;
  }

  /** The copy that a loading attempt holds is current, and what it points to is there. */
  lemma LoadingFacts(r: Run, k: nat, n: Id)
    requires IsRun(r) && k < |r.states| && FlightOf(r.states[k], Notify(n)).attempts != []
    requires FlightOf(r.states[k], Notify(n)).attempts[0].Loading?
    ensures var s, seen := r.states[k], FlightOf(r.states[k], Notify(n)).attempts[0].seen;
      && n in s.notifs && seen.sub == s.notifs[n].sub && seen.event == s.notifs[n].event
      && seen.nonce == s.notifs[n].nonce && seen.triesLeft == s.notifs[n].triesLeft
      && seen.sub in s.subs && seen.event in s.events
  {
    hide SignupsOk, ScopesOk, StoreOk, StatusesOk, NoncesOk, DoneOk, OrphansOk, IsRun;
    assert IsRun(r);
    RunInv(r, k);
    var s := r.states[k];
    assert FlightSound(s, Notify(n)) && PhaseSound(s, Notify(n), FlightOf(s, Notify(n)).attempts[0]);
    assert ViewOk(ViewOf(s, Notify(n)));
    NotifiedProved(s, n);
  }

  /** Nothing but loading posts a notification; so nothing is ever posted to an expired subscription. */
  lemma PostedUnexpired(r: Run, k: nat, p: nat)
    requires IsRun(r) && k < |r.steps| && |r.states[k].log| <= p < |r.states[k + 1].log|
    requires r.states[k + 1].log[p].NotificationPosted?
    ensures var s, act := r.states[k], r.states[k + 1].log[p];
      && act.body.sub in s.subs && s.now < s.subs[act.body.sub].createdAt + s.subs[act.body.sub].ttl
      && r.steps[k] == Go(Notify(act.notif), 0, Load)
  {
    PostingIsLoading(r.states[k], r.steps[k], p);
    var x := r.steps[k];
    LoadDecides(r, k, x.t.notif, x.k);
    OnlyAttempt(r, k, x.t, x.k, Load);
    hide IsRun, Apply, Enabled;
  }

  lemma PostingIsLoading(s: State, x: Step, p: nat)
    requires Enabled(s, x) && |s.log| <= p < |Apply(s, x).log| && Apply(s, x).log[p].NotificationPosted?
    ensures x.Go? && x.t.Notify? && x.move == Load
  {
    hide HandlingEnabled, JobAfter, PayloadOf, Expired;
  }

  /** A notification is read before it is sent, and the attempt holds what it read. */
  lemma NotificationRead(r: Run, k: nat, n: Id, a: nat)
    requires IsRun(r) && k < |r.steps| && r.steps[k] == Go(Notify(n), a, Read)
    ensures n in r.states[k].notifs
    ensures GoesTo(r.states[k], r.states[k + 1], Notify(n), Loading(r.states[k].notifs[n]), [])
  {
    OnlyAttempt(r, k, Notify(n), a, Read);
    hide IsRun;
  }

  // ---- sending a handshake ----

  /** An expired subscription gets no handshake; any other is read, its URL and its tries. */
  lemma HandshakeRead(r: Run, k: nat, i: Id, a: nat)
    requires IsRun(r) && k < |r.steps| && r.steps[k] == Go(Handshake(i), a, Read)
    ensures i in r.states[k].subs
    ensures var s, s', sub := r.states[k], r.states[k + 1], r.states[k].subs[i];
      if sub.createdAt + sub.ttl <= s.now then IsOver(s, s', Handshake(i)) && s'.subs == s.subs && s'.slots == s.slots
      else GoesTo(s, s', Handshake(i), Drawing(sub.triesLeft, sub.url), [])
  {
    OnlyAttempt(r, k, Handshake(i), a, Read);
    hide IsRun;
  }

  /** The secret that was drawn is what is sent, and what the attempt waits to see echoed. */
  lemma HandshakeSent(r: Run, k: nat, i: Id, a: nat, secret: string)
    requires IsRun(r) && k < |r.steps| && r.steps[k] == Go(Handshake(i), a, Draw(secret))
    ensures i in r.states[k].subs && FlightOf(r.states[k], Handshake(i)).attempts != []
    ensures var s, s' := r.states[k], r.states[k + 1];
      && FlightOf(s, Handshake(i)).attempts[0].Drawing?
      && GoesTo(s, s', Handshake(i), Awaiting(s.subs[i].triesLeft, secret), [HandshakePosted(i, s.subs[i].url, secret)])
  {
    OnlyAttempt(r, k, Handshake(i), a, Draw(secret));
    DrawingFacts(r, k, i);
    hide IsRun;
  }

  predicate DrawsFor(s: State, i: Id, phase: Phase) {
    phase.Drawing? ==> i in s.subs && phase.url == s.subs[i].url
  }

  lemma DrawingFacts(r: Run, k: nat, i: Id)
    requires IsRun(r) && k < |r.states| && |FlightOf(r.states[k], Handshake(i)).attempts| == 1
    requires FlightOf(r.states[k], Handshake(i)).attempts[0].Drawing?
    ensures var s, phase := r.states[k], FlightOf(r.states[k], Handshake(i)).attempts[0];
      i in s.subs && phase.url == s.subs[i].url && phase.tries == s.subs[i].triesLeft
  {
    hide FanoutOk, SignupsOk, ScopesOk, StoreOk, StatusesOk, HandshakesOk, NoncesOk, DoneOk, OrphansOk;
    RunInv(r, k);
    assert ViewOk(ViewOf(r.states[k], Handshake(i)));
    hide DeliveryOk;
    DrawnFrom(r, k, i);
  }

  lemma {:induction false} DrawnFrom(r: Run, k: nat, i: Id)
    requires IsRun(r) && k < |r.states|
    ensures forall a :: 0 <= a < |FlightOf(r.states[k], Handshake(i)).attempts| ==>
                          DrawsFor(r.states[k], i, FlightOf(r.states[k], Handshake(i)).attempts[a])
  {
    hide Enabled, Apply, Inv, DrawsFor, Evolves;
    if k > 0 {
      DrawnFrom(r, k - 1, i);
      RunInv(r, k - 1);
      InvKept(r.states[k - 1], r.steps[k - 1]);
      StepDraws(r.states[k - 1], r.steps[k - 1], i);
    }
  }

  lemma StepDraws(s: State, x: Step, i: Id)
    requires Enabled(s, x) && Evolves(s, Apply(s, x))
    requires forall a :: 0 <= a < |FlightOf(s, Handshake(i)).attempts| ==>
                           DrawsFor(s, i, FlightOf(s, Handshake(i)).attempts[a])
    ensures forall a :: 0 <= a < |FlightOf(Apply(s, x), Handshake(i)).attempts| ==>
                          DrawsFor(Apply(s, x), i, FlightOf(Apply(s, x), Handshake(i)).attempts[a])
  {
    var s' := Apply(s, x);
    var before, after := FlightOf(s, Handshake(i)).attempts, FlightOf(s', Handshake(i)).attempts;
    forall a | 0 <= a < |after| ensures DrawsFor(s', i, after[a]) {
      AttemptsOnlyStart(s, x, i, a);
    }
  }

  /** An attempt was there before, just starts, or comes from the move made now. */
  lemma AttemptsOnlyStart(s: State, x: Step, i: Id, a: nat)
    requires Enabled(s, x) && a < |FlightOf(Apply(s, x), Handshake(i)).attempts|
    ensures var phase := FlightOf(Apply(s, x), Handshake(i)).attempts[a];
      || phase in FlightOf(s, Handshake(i)).attempts || phase == Reading
      || (phase.Drawing? ==> i in s.subs && phase.url == s.subs[i].url)
  {
    if x.Go? && x.t == Handshake(i) {
      MovesToDrawing(s, i, FlightOf(s, x.t).attempts[x.k], x.move);
      hide EffectOf, MoveEnabled;
    } else {
      hide EffectOf, MoveEnabled, HandlingEnabled, JobAfter, PayloadOf, Fly;
    }
  }

  lemma MovesToDrawing(s: State, i: Id, phase: Phase, x: Move)
    requires MoveEnabled(Handshake(i), phase, x)
    ensures var next := EffectOf(s, Handshake(i), phase, x).next;
      next.Some? && next.value.Drawing? ==> i in s.subs && next.value.url == s.subs[i].url
  {
  }

  // ---- answers, outcomes, retries ----

  /**
   * Only the code 200, and for a handshake the echo of the secret that this attempt sent, counts as
   * success; everything else, no answer included, goes to `retry` with one try less.
   */
  lemma AnswerDecides(r: Run, k: nat, t: Task, a: nat, answer: Response)
    requires IsRun(r) && k < |r.steps| && r.steps[k] == Go(t, a, Answer(answer))
    ensures |FlightOf(r.states[k], t).attempts| == 1 && FlightOf(r.states[k], t).attempts[0].Awaiting?
    ensures var s, s', phase := r.states[k], r.states[k + 1], FlightOf(r.states[k], t).attempts[0];
      var good := answer.Response? && answer.code == 200 && (t.Handshake? ==> answer.echo == Some(phase.secret));
      var seen := match t
                  case Handshake(i) => HandshakeAnswered(i, phase.secret, answer)
                  case Notify(n) => NotificationAnswered(n, answer);
      && phase.tries == TriesOf(s, t)
      && GoesTo(s, s', t, if good then Settling(phase.tries, Confirm) else Retrying(phase.tries - 1), [seen])
  {
    OnlyAttempt(r, k, t, a, Answer(answer));
    CopyIsCurrent(r, k, t);
    hide IsRun;
  }

  lemma CopyIsCurrent(r: Run, k: nat, t: Task)
    requires IsRun(r) && k < |r.states| && |FlightOf(r.states[k], t).attempts| == 1
    ensures PhaseOk(t, FlightOf(r.states[k], t).attempts[0], TriesOf(r.states[k], t))
    ensures StandingOf(r.states[k], t) == Waiting
  {
    hide FanoutOk, SignupsOk, ScopesOk, StoreOk, StatusesOk, HandshakesOk, NoncesOk, DoneOk, OrphansOk;
    RunInv(r, k);
    assert ViewOk(ViewOf(r.states[k], t));
  }

  /** The record of a task with another status or other tries. */
  ghost predicate Becomes(s: State, s': State, t: Task, sub: SubscriptionStatus, note: NotificationStatus, tries: int) {
    match t
    case Handshake(i) =>
      i in s.subs && s'.notifs == s.notifs && s'.subs == s.subs[i := s.subs[i].(status := sub, triesLeft := tries)]
    case Notify(n) =>
      n in s.notifs && s'.subs == s.subs && s'.notifs == s.notifs[n := s.notifs[n].(status := note, triesLeft := tries)]
  }

  /** Settling writes Active for a handshake, Acknowledged or Orphaned for a notification, and ends the attempt. */
  lemma SettleDecides(r: Run, k: nat, t: Task, a: nat)
    requires IsRun(r) && k < |r.steps| && r.steps[k] == Go(t, a, Settle)
    ensures |FlightOf(r.states[k], t).attempts| == 1 && FlightOf(r.states[k], t).attempts[0].Settling?
    ensures var s, s', phase := r.states[k], r.states[k + 1], FlightOf(r.states[k], t).attempts[0];
      && IsOver(s, s', t) && s'.slots == s.slots
      && Becomes(s, s', t, Active, if phase.outcome.Confirm? then Acknowledged else Orphaned, TriesOf(s, t))
  {
    OnlyAttempt(r, k, t, a, Settle);
    CopyIsCurrent(r, k, t);
    hide IsRun;
  }

  /** `retry`: no try left gives up for good; otherwise the tries are stored and the task is to be scheduled. */
  lemma RetryDecides(r: Run, k: nat, t: Task, a: nat)
    requires IsRun(r) && k < |r.steps| && r.steps[k] == Go(t, a, Retry)
    ensures var s, s' := r.states[k], r.states[k + 1];
      && s'.log == s.log && s'.slots == s.slots
      && if TriesOf(s, t) == 1 then
           IsOver(s, s', t) && Becomes(s, s', t, SubscriptionStatus.Rejected, NotificationStatus.Failed, 0)
         else
           FlightOf(s', t).attempts == [Rescheduling] && Becomes(s, s', t, Inactive, Unsettled, TriesOf(s, t) - 1)
  {
    OnlyAttempt(r, k, t, a, Retry);
    CopyIsCurrent(r, k, t);
    hide IsRun;
  }

  /**
   * A failure inside the try block counts as a failed attempt and writes nothing; one outside, at the first
   * read or at the update made by `retry`, ends the attempt and writes nothing.
   */
  lemma FailureDecides(r: Run, k: nat, t: Task, a: nat, x: Move)
    requires IsRun(r) && k < |r.steps| && r.steps[k] == Go(t, a, x)
    ensures var s, s' := r.states[k], r.states[k + 1];
      && (x.DrawFails? || x.LoadFails? || x.SettleFails? ==> GoesTo(s, s', t, Retrying(TriesOf(s, t) - 1), []))
      && (x.ReadFails? || x.RetryFails? ==>
            IsOver(s, s', t) && s'.subs == s.subs && s'.notifs == s.notifs && s'.slots == s.slots)
  {
    OnlyAttempt(r, k, t, a, x);
    CopyIsCurrent(r, k, t);
    hide IsRun;
  }

  // ---- timers ----

  ghost predicate Pending(s: State, t: Task, h: nat) {
    SlotOf(s, t).timers == {h} && SlotOf(s, t).registered == Some(h)
  }

  ghost predicate NoTimer(s: State, t: Task) {
    SlotOf(s, t).timers == {} && SlotOf(s, t).registered.None?
  }

  /** Rescheduling ends the attempt and leaves one registered timer in its place. */
  lemma RescheduleDecides(r: Run, k: nat, t: Task, a: nat)
    requires IsRun(r) && k < |r.steps| && r.steps[k] == Go(t, a, Reschedule)
    ensures NoTimer(r.states[k], t) && IsOver(r.states[k], r.states[k + 1], t)
    ensures Pending(r.states[k + 1], t, SlotOf(r.states[k], t).next)
    ensures r.states[k + 1].subs == r.states[k].subs && r.states[k + 1].notifs == r.states[k].notifs
  {
    OnlyAttempt(r, k, t, a, Reschedule);
    SlotFacts(r, k, t);
    hide IsRun;
  }

  lemma SlotFacts(r: Run, k: nat, t: Task)
    requires IsRun(r) && k < |r.states|
    ensures var s := r.states[k];
      && (FlightOf(s, t).attempts != [] || FlightOf(s, t).newborn ==> NoTimer(s, t))
      && forall h :: h in SlotOf(s, t).timers ==> Pending(s, t, h) && FlightOf(s, t).attempts == []
  {
    hide FanoutOk, SignupsOk, ScopesOk, StoreOk, StatusesOk, HandshakesOk, NoncesOk, DoneOk, OrphansOk;
    RunInv(r, k);
    assert ViewOk(ViewOf(r.states[k], t));
  }

  /** A timer that runs out leaves none behind, and starts one attempt, which begins by reading. */
  lemma TimerDecides(r: Run, k: nat, t: Task, h: nat)
    requires IsRun(r) && k < |r.steps| && r.steps[k] == Fire(t, h)
    ensures Pending(r.states[k], t, h) && NoTimer(r.states[k + 1], t)
    ensures FlightOf(r.states[k], t).attempts == [] && FlightOf(r.states[k + 1], t).attempts == [Reading]
    ensures r.states[k + 1].subs == r.states[k].subs && r.states[k + 1].notifs == r.states[k].notifs
    ensures r.states[k + 1].log == r.states[k].log
  {
    SlotFacts(r, k, t);
  }

  /** The first scheduling of a new task leaves one registered timer. */
  lemma FirstTimer(r: Run, k: nat, e: Id, i: Id)
    requires IsRun(r) && k < |r.steps| && r.steps[k] == Handle(e, ScheduleNotification(i))
    ensures e in r.states[k].jobs && i in r.states[k].jobs[e].creations && r.states[k].jobs[e].creations[i].Stored?
    ensures var t := Notify(r.states[k].jobs[e].creations[i].n);
      NoTimer(r.states[k], t) && Pending(r.states[k + 1], t, SlotOf(r.states[k], t).next)
      && !FlightOf(r.states[k + 1], t).newborn
  {
    var t := Notify(r.states[k].jobs[e].creations[i].n);
    SlotFacts(r, k, t);
  }

  lemma FirstHandshakeTimer(r: Run, k: nat, g: Id)
    requires IsRun(r) && k < |r.steps| && r.steps[k] == Sign(g, ScheduleHandshake)
    ensures g in r.states[k].signups && r.states[k].signups[g].phase.Scheduling?
    ensures var t := Handshake(r.states[k].signups[g].phase.sub);
      NoTimer(r.states[k], t) && Pending(r.states[k + 1], t, SlotOf(r.states[k], t).next)
      && !FlightOf(r.states[k + 1], t).newborn
  {
    var t := Handshake(r.states[k].signups[g].phase.sub);
    NewbornFact(r, k, g);
    SlotFacts(r, k, t);
  }

  lemma NewbornFact(r: Run, k: nat, g: Id)
    requires IsRun(r) && k < |r.states| && g in r.states[k].signups && r.states[k].signups[g].phase.Scheduling?
    ensures FlightOf(r.states[k], Handshake(r.states[k].signups[g].phase.sub)).newborn
  {
    hide DeliveryOk, FanoutOk, ScopesOk, StoreOk, StatusesOk, HandshakesOk, NoncesOk, DoneOk, OrphansOk;
    RunInv(r, k);
    assert SignupOk(r.states[k], g, r.states[k].signups[g]);
  }
}
