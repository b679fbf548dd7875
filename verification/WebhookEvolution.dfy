/** What one step may do to stored records: which status changes exist, and what never changes. */
module WebhookEvolution {
  import opened Payloads
  import opened WebhookState
  import opened WebhookSteps
  import opened WebhookDelivery

  /** Inactive to Active to Done, or Inactive to Rejected. */
  predicate SubMoves(a: SubscriptionStatus, b: SubscriptionStatus) {
    a == b || (a.Inactive? && (b.Active? || b.Rejected?)) || (a.Active? && b.Done?)
  }

  /** Out of the unsettled state once, and never back. */
  predicate NotifMoves(a: NotificationStatus, b: NotificationStatus) {
    a == b || a.Unsettled?
  }

  predicate SubEvolves(a: Subscription, b: Subscription) {
    && SubMoves(a.status, b.status)
    && b == a.(status := b.status, triesLeft := b.triesLeft, nextNonce := b.nextNonce)
    && b.triesLeft <= a.triesLeft
  }

  predicate NotifEvolves(a: Notification, b: Notification) {
    && NotifMoves(a.status, b.status)
    && b == a.(status := b.status, triesLeft := b.triesLeft)
    && b.triesLeft <= a.triesLeft
  }

  ghost predicate Evolves(s: State, s': State) {
    && (forall i :: i in s.subs ==> i in s'.subs && SubEvolves(s.subs[i], s'.subs[i]))
    && (forall n :: n in s.notifs ==> n in s'.notifs && NotifEvolves(s.notifs[n], s'.notifs[n]))
  }

  lemma ChangeIsSmall(v: View, eff: Effect)
    requires ViewOk(v) && v.flight.attempts != [] && Fits(v, v.flight.attempts[0], eff)
    ensures v.standing == Waiting
    ensures eff.change.Charge? ==> eff.change.left + 1 == v.tries
  {
  }

  lemma PerformEvolves(s: State, t: Task, k: nat, eff: Effect)
    requires k < |FlightOf(s, t).attempts| && StandingOf(s, t) == Waiting
    requires eff.change.Charge? ==> eff.change.left + 1 == TriesOf(s, t)
    ensures Evolves(s, Perform(s, t, k, eff))
  {
  }

  lemma MoveEvolves(s: State, t: Task, k: nat, x: Move)
    requires DeliveryOk(s) && Enabled(s, Go(t, k, x))
    ensures Evolves(s, Apply(s, Go(t, k, x)))
  {
    hide EffectOf, Fits, Perform, ViewOk, Evolves;
    MoveKeeps(s, t, k, x);
    var eff := EffectOf(s, t, FlightOf(s, t).attempts[0], x);
    ChangeIsSmall(ViewOf(s, t), eff);
    PerformEvolves(s, t, k, eff);
  }

  lemma SigningEvolves(s: State, g: Id, x: Signing)
    requires SigningEnabled(s, g, x)
    ensures Evolves(s, ApplySigning(s, g, x))
  {
  }

  lemma HandlingEvolves(s: State, e: Id, x: Handling)
    requires DoneTargetsOk(s) && HandlingEnabled(s, e, x)
    ensures Evolves(s, ApplyHandling(s, e, x))
  {
    assert x.MarkDone? ==> Confirmed(s, x.sub);
  }

  lemma StandsStill(s: State, s': State)
    requires s'.subs == s.subs && s'.notifs == s.notifs
    ensures Evolves(s, s')
  {
  }

  lemma StepEvolves(s: State, x: Step)
    requires DeliveryOk(s) && DoneTargetsOk(s) && Enabled(s, x)
    ensures Evolves(s, Apply(s, x))
  {
    hide Evolves, DeliveryOk, DoneTargetsOk, EffectOf, Perform, ApplyHandling, HandlingEnabled, ApplySigning,
      PayloadOf;
    match x
    case Sign(g, signing) => SigningEvolves(s, g, signing);
    case Handle(e, handling) => HandlingEvolves(s, e, handling);
    case Go(t, k, move) => MoveEvolves(s, t, k, move);
    case Fire(t, h) => StandsStill(s, Ring(s, t, h));
    case Tick(ms) => StandsStill(s, Apply(s, x));
    case Submit(g, url) => StandsStill(s, ApplySubmit(s, g, url));
    case Subscribe(g, scope, url) => StandsStill(s, Apply(s, x));
    case StatusChange(tx, snap) => StandsStill(s, ApplyStatusChange(s, tx, snap));
  }
}
