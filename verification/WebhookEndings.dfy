/** Why a subscription is done, and why a notification is given up as orphaned. */
module WebhookEndings {
  import opened Payloads
  import opened WebhookState
  import opened WebhookSteps
  import opened WebhookDelivery
  import opened WebhookEvolution
  import opened WebhookFanout
  import opened WebhookHandshakes

  // ---- Done ----

  /** The handler of a terminal event of this scope is marking, or has marked, subscriptions as done. */
  predicate Marks(job: Job, scope: Id) {
    job.phase.MarkingDone? && job.tx == scope
  }

  ghost predicate DoneOk(s: State) {
    forall i :: i in s.subs && s.subs[i].status == Done ==> exists e :: e in s.jobs && Marks(s.jobs[e], s.subs[i].scope)
  }

  /** No subscription turns Done, and handlers that mark go on marking. */
  lemma DoneStays(s: State, s': State)
    requires DoneOk(s) && Evolves(s, s')
    requires forall i :: i in s'.subs && s'.subs[i].status == Done ==> i in s.subs && s.subs[i].status == Done
    requires forall e, scope :: e in s.jobs && Marks(s.jobs[e], scope) ==> e in s'.jobs && Marks(s'.jobs[e], scope)
    ensures DoneOk(s')
  {
    forall i | i in s'.subs && s'.subs[i].status == Done
      ensures exists e :: e in s'.jobs && Marks(s'.jobs[e], s'.subs[i].scope)
    {
      var e :| e in s.jobs && Marks(s.jobs[e], s.subs[i].scope);
      assert e in s'.jobs && Marks(s'.jobs[e], s'.subs[i].scope);
    }
  }

  lemma HandlingMarks(s: State, e: Id, x: Handling, scope: Id)
    requires HandlingEnabled(s, e, x) && JobOk(s, e, s.jobs[e]) && Marks(s.jobs[e], scope)
    ensures Marks(JobAfter(s, e, x), scope)
  {
  }

  lemma HandlingDone(s: State, e: Id, x: Handling)
    requires DoneOk(s) && HandlingEnabled(s, e, x) && JobOk(s, e, s.jobs[e]) && Evolves(s, ApplyHandling(s, e, x))
    ensures DoneOk(ApplyHandling(s, e, x))
  {
    var s' := ApplyHandling(s, e, x);
    HandlingBooks(s, e, x);
    assert x.MarkDone? ==> Subscribed(s, s.jobs[e].tx, x.sub) && Marks(s'.jobs[e], s.subs[x.sub].scope);
    assert forall i :: i in s'.subs && s'.subs[i].status == Done ==>
        (i in s.subs && s.subs[i].status == Done) || (x.MarkDone? && i == x.sub);
    hide ApplyHandling, JobAfter, HandlingEnabled, JobOk;
    forall i | i in s'.subs && s'.subs[i].status == Done
      ensures exists e' :: e' in s'.jobs && Marks(s'.jobs[e'], s'.subs[i].scope)
    {
      if x.MarkDone? && i == x.sub {
        assert e in s'.jobs && Marks(s'.jobs[e], s'.subs[i].scope);
      } else {
        var e' :| e' in s.jobs && Marks(s.jobs[e'], s.subs[i].scope);
        if e' == e { HandlingMarks(s, e, x, s.subs[i].scope); }
        assert e' in s'.jobs && Marks(s'.jobs[e'], s'.subs[i].scope);
      }
    }
  }

  lemma PerformDone(s: State, t: Task, k: nat, eff: Effect)
    requires DoneOk(s) && k < |FlightOf(s, t).attempts| && Evolves(s, Perform(s, t, k, eff))
    ensures DoneOk(Perform(s, t, k, eff))
  {
    hide DoneOk, Evolves;
    DoneStays(s, Perform(s, t, k, eff));
  }

  lemma SigningDone(s: State, g: Id, x: Signing)
    requires DoneOk(s) && SigningEnabled(s, g, x) && Evolves(s, ApplySigning(s, g, x))
    ensures DoneOk(ApplySigning(s, g, x))
  {
    hide DoneOk, Evolves;
    DoneStays(s, ApplySigning(s, g, x));
  }

  lemma QuietDone(s: State, x: Step)
    requires DoneOk(s) && Enabled(s, x) && Evolves(s, Apply(s, x)) && s.currentEvent + 1 !in s.jobs
    requires !x.Sign? && !x.Handle? && !x.Go?
    ensures DoneOk(Apply(s, x))
  {
    hide DoneOk, Evolves, PayloadOf;
    DoneStays(s, Apply(s, x));
  }

  lemma HandleDone(s: State, e: Id, x: Handling)
    requires DoneOk(s) && FanoutOk(s) && HandlingEnabled(s, e, x) && Evolves(s, ApplyHandling(s, e, x))
    ensures DoneOk(ApplyHandling(s, e, x))
  {
    assert JobOk(s, e, s.jobs[e]);
    hide DoneOk, FanoutOk, JobOk, Evolves, ApplyHandling, HandlingEnabled;
    HandlingDone(s, e, x);
  }

  lemma DoneKept(s: State, x: Step)
    requires DoneOk(s) && FanoutOk(s) && Enabled(s, x) && Evolves(s, Apply(s, x))
    ensures DoneOk(Apply(s, x))
  {
    assert s.currentEvent + 1 !in s.jobs;
    hide DoneOk, FanoutOk, Evolves, EffectOf, Perform, Ring, ApplyHandling, HandlingEnabled, ApplySigning,
      SigningEnabled, PayloadOf;
    if x.Sign? {
      SigningDone(s, x.g, x.signing);
    } else if x.Handle? {
      HandleDone(s, x.e, x.handling);
    } else if x.Go? {
      PerformDone(s, x.t, x.k, EffectOf(s, x.t, FlightOf(s, x.t).attempts[x.k], x.move));
    } else {
      QuietDone(s, x);
    }
  }

  // ---- Orphaned ----

  /** The subscription of notification `n` has expired. */
  ghost predicate Abandonable(s: State, n: Id) {
    n in s.notifs && s.notifs[n].sub in s.subs && Expired(s.subs[s.notifs[n].sub], s.now)
  }

  predicate GivesUp(phase: Phase) {
    phase.Settling? && phase.outcome.Orphan?
  }

  ghost predicate OrphanFlight(s: State, n: Id) {
    forall k :: 0 <= k < |FlightOf(s, Notify(n)).attempts| && GivesUp(FlightOf(s, Notify(n)).attempts[k]) ==>
      Abandonable(s, n)
  }

  ghost predicate OrphansOk(s: State) {
    && (forall n :: OrphanFlight(s, n))
    && (forall n :: n in s.notifs && s.notifs[n].status == Orphaned ==> Abandonable(s, n))
  }

  lemma AbandonableStays(s: State, s': State, n: Id)
    requires Abandonable(s, n) && Evolves(s, s') && s.now <= s'.now
    ensures Abandonable(s', n)
  {
  }

  lemma OrphansStay(s: State, s': State)
    requires OrphansOk(s) && Evolves(s, s') && s.now <= s'.now
    requires forall t :: OnlyStarts(s, s', t)
    requires forall n :: n in s'.notifs && s'.notifs[n].status == Orphaned ==>
             n in s.notifs && s.notifs[n].status == Orphaned
    ensures OrphansOk(s')
  {
    hide Evolves, Abandonable;
    forall n ensures OrphanFlight(s', n) {
      assert OnlyStarts(s, s', Notify(n)) && OrphanFlight(s, n);
      if Abandonable(s, n) { AbandonableStays(s, s', n); }
    }
    forall n | n in s'.notifs && s'.notifs[n].status == Orphaned ensures Abandonable(s', n) {
      AbandonableStays(s, s', n);
    }
  }

  /** An attempt turns to giving up, or gives up, only on an expired subscription. */
  lemma MoveGivesUp(s: State, t: Task, x: Move)
    requires Enabled(s, Go(t, 0, x)) && |FlightOf(s, t).attempts| == 1 && FlightSound(s, t)
    requires t.Notify? && OrphanFlight(s, t.notif)
    ensures var eff := EffectOf(s, t, FlightOf(s, t).attempts[0], x);
      && (eff.next.Some? && GivesUp(eff.next.value) ==> Abandonable(s, t.notif))
      && (eff.change == Assign(Orphan) ==> Abandonable(s, t.notif))
  {
    assert PhaseSound(s, t, FlightOf(s, t).attempts[0]);
  }

  lemma MoveOrphans(s: State, t: Task, k: nat, x: Move)
    requires OrphansOk(s) && HandshakesOk(s) && DeliveryOk(s) && Enabled(s, Go(t, k, x))
             && Evolves(s, Apply(s, Go(t, k, x)))
    ensures OrphansOk(Apply(s, Go(t, k, x)))
  {
    MoveKeeps(s, t, k, x);
    assert ViewOk(ViewOf(s, t)) && |FlightOf(s, t).attempts| == 1;
    assert FlightSound(s, t);
    if t.Notify? {
      assert OrphanFlight(s, t.notif);
      MoveGivesUp(s, t, x);
    }
    hide EffectOf, Fits, Evolves, DeliveryOk, ViewOk, HandshakesOk, FlightSound, MoveEnabled, Abandonable;
    var eff := EffectOf(s, t, FlightOf(s, t).attempts[0], x);
    PerformOrphans(s, t, eff);
  }

  lemma PerformOrphans(s: State, t: Task, eff: Effect)
    requires OrphansOk(s) && |FlightOf(s, t).attempts| == 1 && Evolves(s, Perform(s, t, 0, eff))
    requires t.Notify? && eff.next.Some? && GivesUp(eff.next.value) ==> Abandonable(s, t.notif)
    requires t.Notify? && eff.change == Assign(Orphan) ==> Abandonable(s, t.notif)
    ensures OrphansOk(Perform(s, t, 0, eff))
  {
    hide Evolves, Abandonable;
    var s' := Perform(s, t, 0, eff);
    assert eff.next.None? ==> FlightOf(s', t).attempts == [];
    assert eff.next.Some? ==> FlightOf(s', t).attempts == [eff.next.value];
    forall n ensures OrphanFlight(s', n) {
      forall k | 0 <= k < |FlightOf(s', Notify(n)).attempts| && GivesUp(FlightOf(s', Notify(n)).attempts[k])
        ensures Abandonable(s', n)
      {
        assert OrphanFlight(s, n);
        assert Notify(n) != t ==> FlightOf(s', Notify(n)) == FlightOf(s, Notify(n));
        AbandonableStays(s, s', n);
      }
    }
    forall n | n in s'.notifs && s'.notifs[n].status == Orphaned ensures Abandonable(s', n) {
      assert Abandonable(s, n);
      AbandonableStays(s, s', n);
    }
  }

  lemma HandlingOrphans(s: State, e: Id, x: Handling)
    requires OrphansOk(s) && HandlingEnabled(s, e, x) && Evolves(s, ApplyHandling(s, e, x))
    ensures OrphansOk(ApplyHandling(s, e, x))
  {
    hide OrphansOk, Evolves, JobAfter;
    OrphansStay(s, ApplyHandling(s, e, x));
  }

  lemma SigningOrphans(s: State, g: Id, x: Signing)
    requires OrphansOk(s) && SigningEnabled(s, g, x) && Evolves(s, ApplySigning(s, g, x))
    ensures OrphansOk(ApplySigning(s, g, x))
  {
    hide OrphansOk, Evolves;
    OrphansStay(s, ApplySigning(s, g, x));
  }

  lemma OrphansKept(s: State, x: Step)
    requires OrphansOk(s) && HandshakesOk(s) && DeliveryOk(s) && Enabled(s, x) && Evolves(s, Apply(s, x))
    ensures OrphansOk(Apply(s, x))
  {
    hide OrphansOk, HandshakesOk, DeliveryOk, Evolves, EffectOf, Perform, ApplyHandling, HandlingEnabled,
      ApplySigning, SigningEnabled, PayloadOf;
    match x
    case Sign(g, signing) => SigningOrphans(s, g, signing);
    case Handle(e, handling) => HandlingOrphans(s, e, handling);
    case Go(t, k, move) => MoveOrphans(s, t, k, move);
    case StatusChange(tx, snap) => OrphansStay(s, ApplyStatusChange(s, tx, snap));
    case Fire(t, h) => RingStarts(s, t, h); OrphansStay(s, Ring(s, t, h));
    case Tick(ms) => OrphansStay(s, Apply(s, x));
    case Submit(g, url) => OrphansStay(s, ApplySubmit(s, g, url));
    case Subscribe(g, scope, url) => OrphansStay(s, Apply(s, x));
  }
}
