/**
 * Delivery of one task. A task still to be delivered waits in at most one place: just stored, in a
 * timer, or in a running attempt. The invariant is about one task at a time, because no step of one
 * task touches another.
 */
module WebhookDelivery {
  import opened Payloads
  import opened Wrappers
  import opened WebhookState
  import opened WebhookSteps

  /** All that concerns the delivery of one task. */
  datatype View = View(
    task: Task, slot: Slot, flight: Flight, standing: Standing, tries: int, max: nat, lapsed: bool)

  function ViewOf(s: State, t: Task): View {
    View(t, SlotOf(s, t), FlightOf(s, t), StandingOf(s, t), TriesOf(s, t), MaxTries(s.cfg, t), Lapsed(s, t))
  }

  /** The registry holds exactly the pending timer, and was never asked for something it refused. */
  predicate SlotOk(c: Slot) {
    && c.errors == 0
    && c.timers == (if c.registered.Some? then {c.registered.value} else {})
    && (c.registered.Some? ==> c.registered.value < c.next)
  }

  function Carriers(v: View): nat {
    |v.flight.attempts| + (if v.flight.newborn then 1 else 0) + |v.slot.timers|
  }

  /** The copy of `triesLeft` that the attempt read is still the stored one. */
  predicate PhaseOk(t: Task, phase: Phase, tries: int) {
    match phase
    case Reading => true
    case Drawing(n, _) => n == tries && t.Handshake?
    case Loading(seen) => seen.triesLeft == tries && t.Notify?
    case Awaiting(n, _) => n == tries
    case Settling(n, outcome) => n == tries && (t.Handshake? ==> outcome.Confirm?)
    case Retrying(left) => left + 1 == tries
    case Rescheduling => true
  }

  predicate BeforePost(phase: Phase) {
    phase.Reading? || phase.Drawing? || phase.Loading? || (phase.Settling? && phase.outcome.Orphan?)
  }

  /** Tries used up so far, and the accounts of attempts, failures and POSTs that follow from them. */
  predicate AccountsOk(v: View) {
    var used, f := v.max - v.tries, v.flight;
    if f.attempts != [] then
      var phase := f.attempts[0];
      && f.starts == used + (if phase.Rescheduling? then 0 else 1)
      && f.failures == used + (if phase.Retrying? then 1 else 0)
      && f.posts <= f.starts - (if BeforePost(phase) then 1 else 0)
    else if Carriers(v) > 0 then f.starts == used && f.failures == used && f.posts <= used
    else if v.standing == Standing.Lost then f.starts == v.max && f.failures == v.max && f.posts <= v.max
    else if v.standing == Waiting then
      && used <= f.starts <= used + 1
      && used <= f.failures <= used + 1
      && (!f.dropped ==> f.failures == used)
      && f.posts <= f.starts
    else f.starts == used + 1 && f.failures == used && f.posts <= f.starts
  }

  predicate ViewOk(v: View) {
    && SlotOk(v.slot)
    && v.max >= 1
    && (v.standing == Absent ==> v.flight == NoFlight && v.slot == EmptySlot)
    && (v.standing != Absent ==>
          && Carriers(v) <= 1
          && (Carriers(v) > 0 ==> v.standing == Waiting)
          && 0 <= v.tries <= v.max
          && (v.tries == 0 <==> v.standing == Standing.Lost)
          && (v.flight.attempts != [] ==> PhaseOk(v.task, v.flight.attempts[0], v.tries))
          && AccountsOk(v)
          && (!v.flight.dropped && v.standing == Waiting && Carriers(v) == 0 ==> v.lapsed))
  }

  ghost predicate DeliveryOk(s: State) {
    s.cfg.Valid() && forall t :: ViewOk(ViewOf(s, t))
  }

  // ---- one task ----

  /** The view after an attempt's step, with the standing and tries that the change gives. */
  function StandingAfter(v: View, change: Change): Standing {
    match change
    case Keep => v.standing
    case Assign(outcome) => if outcome.Confirm? then Won else Void
    case Charge(left) => if left == 0 then Standing.Lost else v.standing
  }

  function ViewAfter(v: View, k: nat, eff: Effect): View
    requires k < |v.flight.attempts|
  {
    View(v.task, if eff.timer then AddTimer(v.slot) else v.slot, Fly(v.flight, k, eff), StandingAfter(v, eff.change),
         if eff.change.Charge? then eff.change.left else v.tries, v.max, v.lapsed)
  }

  /** An effect that fits the phase it starts from. */
  predicate Fits(v: View, phase: Phase, eff: Effect) {
    var post := eff.log != [] && IsPost(eff.log[0]);
    match eff.next
    case Some(next) =>
      && !eff.timer && !eff.dropped
      && (post ==> BeforePost(phase) && !BeforePost(next))
      && (BeforePost(next) ==> BeforePost(phase))
      && (match eff.change
         case Keep => PhaseOk(v.task, next, v.tries) && !phase.Retrying? && !phase.Rescheduling? && !next.Rescheduling?
         case Assign(_) => false
         case Charge(left) => phase == Retrying(left) && left != 0 && next.Rescheduling? && !post)
    case None =>
      && !post
      && match eff.change
         case Keep =>
           if eff.timer then phase.Rescheduling? && !eff.dropped
           else eff.dropped || (phase.Reading? && v.lapsed)
         case Assign(outcome) => phase.Settling? && outcome == phase.outcome && !eff.timer && !eff.dropped
         case Charge(left) => phase == Retrying(left) && left == 0 && !eff.timer && !eff.dropped
  }

  lemma EffectFits(s: State, t: Task, x: Move)
    requires ViewOk(ViewOf(s, t))
    requires Enabled(s, Go(t, 0, x))
    ensures var phase := FlightOf(s, t).attempts[0]; Fits(ViewOf(s, t), phase, EffectOf(s, t, phase, x))
  {
  }

  lemma FittingKeeps(v: View, eff: Effect)
    requires ViewOk(v) && v.flight.attempts != []
    requires Fits(v, v.flight.attempts[0], eff)
    ensures ViewOk(ViewAfter(v, 0, eff))
  {
    assert |v.flight.attempts| == 1;
    assert v.flight.attempts[..0] + v.flight.attempts[1..] == [];
  }

  lemma BirthOk(t: Task, max: nat, lapsed: bool)
    requires max >= 1
    ensures ViewOk(View(t, EmptySlot, NoFlight.(newborn := true), Waiting, max, max, lapsed))
  {
  }

  lemma LaunchKeeps(v: View)
    requires ViewOk(v) && v.flight.newborn
    ensures ViewOk(v.(slot := AddTimer(v.slot), flight := v.flight.(newborn := false)))
  {
    assert v.slot.timers == {};
  }

  lemma RingKeeps(v: View, h: nat)
    requires ViewOk(v) && h in v.slot.timers
    ensures v.slot.registered == Some(h)
    ensures ViewOk(v.(slot := Elapse(v.slot, h),
                      flight := v.flight.(attempts := v.flight.attempts + [Reading], starts := v.flight.starts + 1)))
  {
    assert v.slot.timers == {h};
    assert v.slot.timers - {h} == {};
  }

  // ---- all tasks ----

  /** A handler marks as done only subscriptions that were confirmed. */
  ghost predicate Confirmed(s: State, i: Id) {
    i in s.subs && s.subs[i].status in {Active, Done}
  }

  ghost predicate DoneTargetsOk(s: State) {
    forall e, i :: e in s.jobs && s.jobs[e].phase.MarkingDone? && i in s.jobs[e].phase.ids ==> Confirmed(s, i)
  }

  /** A signup about to schedule its handshake owns a subscription that nothing has scheduled yet. */
  ghost predicate SignupOk(s: State, g: Id, u: Signup) {
    && (u.phase.Scheduling? || u.phase.SettingNonce? || u.phase.Complete? ==>
          u.phase.sub in s.subs && s.subs[u.phase.sub].origin == g)
    && (u.phase.Scheduling? ==> FlightOf(s, Handshake(u.phase.sub)).newborn)
  }

  ghost predicate SignupsOk(s: State) {
    forall g :: g in s.signups ==> SignupOk(s, g, s.signups[g])
  }

  ghost predicate SameElsewhere(s: State, s': State, t: Task) {
    forall t' :: t' != t ==> ViewOf(s', t') == ViewOf(s, t')
  }

  lemma Lifted(s: State, s': State, t: Task)
    requires DeliveryOk(s) && SameElsewhere(s, s', t)
    requires s'.cfg == s.cfg
    requires ViewOk(ViewOf(s', t))
    ensures DeliveryOk(s')
  {
    forall t' ensures ViewOk(ViewOf(s', t')) {
      assert ViewOk(ViewOf(s, t'));
    }
  }

  /** Subscriptions that differ at most in nonces, or in being Active or Done. */
  ghost predicate SubsAlike(a: map<Id, Subscription>, b: map<Id, Subscription>) {
    && a.Keys == b.Keys
    && forall i :: i in a ==>
                     && SubStanding(a[i].status) == SubStanding(b[i].status)
                     && a[i].triesLeft == b[i].triesLeft
                     && a[i].createdAt == b[i].createdAt && a[i].ttl == b[i].ttl
  }

  lemma ViewStays(s: State, s': State, t: Task)
    requires s'.cfg == s.cfg && s.now <= s'.now && s'.slots == s.slots && s'.flights == s.flights
             && s'.notifs == s.notifs
    requires SubsAlike(s.subs, s'.subs)
    ensures ViewOf(s', t) == ViewOf(s, t) || ViewOf(s', t) == ViewOf(s, t).(lapsed := true)
  {
  }

  lemma Untouched(s: State, s': State)
    requires DeliveryOk(s)
    requires s'.cfg == s.cfg && s.now <= s'.now
    requires s'.slots == s.slots && s'.flights == s.flights && s'.notifs == s.notifs
    requires SubsAlike(s.subs, s'.subs)
    ensures DeliveryOk(s')
  {
    hide ViewOf, SubsAlike;
    forall t ensures ViewOk(ViewOf(s', t)) {
      assert ViewOk(ViewOf(s, t));
      ViewStays(s, s', t);
    }
  }

  lemma Unseen(s: State, s': State)
    requires DeliveryOk(s)
    requires s'.cfg == s.cfg && s.now <= s'.now
    requires s'.slots == s.slots && s'.flights == s.flights && s'.notifs == s.notifs && s'.subs == s.subs
    ensures DeliveryOk(s')
  {
    hide DeliveryOk;
    Untouched(s, s');
  }

  lemma MoveKeeps(s: State, t: Task, k: nat, x: Move)
    requires DeliveryOk(s) && Enabled(s, Go(t, k, x))
    ensures DeliveryOk(Apply(s, Go(t, k, x)))
    ensures k == 0 && StandingOf(s, t) == Waiting
    ensures Fits(ViewOf(s, t), FlightOf(s, t).attempts[0], EffectOf(s, t, FlightOf(s, t).attempts[0], x))
  {
    var v := ViewOf(s, t);
    assert ViewOk(v);
    EffectFits(s, t, x);
    var eff := EffectOf(s, t, v.flight.attempts[0], x);
    FittingKeeps(v, eff);
    PerformViews(s, t, eff);
    Lifted(s, Perform(s, t, 0, eff), t);
  }

  lemma PerformViews(s: State, t: Task, eff: Effect)
    requires ViewOk(ViewOf(s, t))
    requires FlightOf(s, t).attempts != [] && Fits(ViewOf(s, t), FlightOf(s, t).attempts[0], eff)
    ensures ViewOf(Perform(s, t, 0, eff), t) == ViewAfter(ViewOf(s, t), 0, eff)
    ensures SameElsewhere(s, Perform(s, t, 0, eff), t)
  {
  }

  /** A step that only schedules newborn task `t` for the first time. */
  lemma LaunchLifted(s: State, s': State, t: Task)
    requires DeliveryOk(s) && FlightOf(s, t).newborn
    requires s'.slots == Timed(s.slots, t) && s'.flights == Launched(s.flights, t)
    requires s'.cfg == s.cfg && s'.now == s.now && s'.subs == s.subs && s'.notifs == s.notifs
    ensures DeliveryOk(s')
  {
    assert ViewOk(ViewOf(s, t));
    LaunchKeeps(ViewOf(s, t));
    assert ViewOf(s', t) == ViewOf(s, t).(slot := AddTimer(SlotOf(s, t)), flight := FlightOf(s, t).(newborn := false));
    Lifted(s, s', t);
  }

  lemma RingLifted(s: State, t: Task, h: nat)
    requires DeliveryOk(s) && h in SlotOf(s, t).timers
    ensures DeliveryOk(Ring(s, t, h))
  {
    assert ViewOk(ViewOf(s, t));
    RingKeeps(ViewOf(s, t), h);
    Lifted(s, Ring(s, t, h), t);
  }

  lemma StoreNotificationKeeps(s: State, e: Id, i: Id, n: Id)
    requires DeliveryOk(s) && HandlingEnabled(s, e, StoreNotification(i, n))
    ensures DeliveryOk(ApplyHandling(s, e, StoreNotification(i, n)))
  {
    assert ViewOk(ViewOf(s, Notify(n)));
    BirthOk(Notify(n), s.cfg.notificationTries, false);
    Lifted(s, ApplyHandling(s, e, StoreNotification(i, n)), Notify(n));
  }

  lemma StoreSubscriptionKeeps(s: State, g: Id, i: Id)
    requires DeliveryOk(s) && SigningEnabled(s, g, StoreSubscription(i))
    ensures DeliveryOk(ApplySigning(s, g, StoreSubscription(i)))
  {
    var s' := ApplySigning(s, g, StoreSubscription(i));
    assert ViewOk(ViewOf(s, Handshake(i)));
    BirthOk(Handshake(i), s.cfg.handshakeTries, Lapsed(s', Handshake(i)));
    Lifted(s, s', Handshake(i));
  }

  lemma HandlingKeeps(s: State, e: Id, x: Handling)
    requires DeliveryOk(s) && DoneTargetsOk(s) && HandlingEnabled(s, e, x)
    ensures DeliveryOk(ApplyHandling(s, e, x))
  {
    hide ViewOk, DeliveryOk;
    var s' := ApplyHandling(s, e, x);
    if x.StoreNotification? {
      StoreNotificationKeeps(s, e, x.sub, x.n);
    } else if x.ScheduleNotification? {
      LaunchLifted(s, s', Notify(s.jobs[e].creations[x.sub].n));
    } else {
      assert x.MarkDone? ==> Confirmed(s, x.sub);
      Untouched(s, s');
    }
  }

  lemma SigningKeeps(s: State, g: Id, x: Signing)
    requires DeliveryOk(s) && SignupsOk(s) && SigningEnabled(s, g, x)
    ensures DeliveryOk(ApplySigning(s, g, x))
  {
    hide ViewOk, DeliveryOk;
    var s' := ApplySigning(s, g, x);
    if x.StoreSubscription? {
      StoreSubscriptionKeeps(s, g, x.sub);
    } else if x.ScheduleHandshake? {
      assert SignupOk(s, g, s.signups[g]);
      LaunchLifted(s, s', Handshake(s.signups[g].phase.sub));
    } else {
      Untouched(s, s');
    }
  }

  /** Every step of the protocol keeps every task's view in order. */
  lemma DeliveryKept(s: State, x: Step)
    requires DeliveryOk(s) && DoneTargetsOk(s) && SignupsOk(s) && Enabled(s, x)
    ensures DeliveryOk(Apply(s, x))
  {
    hide PayloadOf, DeliveryOk, DoneTargetsOk, SignupsOk, Fits, EffectOf, Perform, ApplyHandling, ApplySigning;
    match x
    case Sign(g, signing) => SigningKeeps(s, g, signing);
    case Handle(e, handling) => HandlingKeeps(s, e, handling);
    case Fire(t, h) => RingLifted(s, t, h);
    case Go(t, k, move) => MoveKeeps(s, t, k, move);
    case Tick(ms) => Unseen(s, s.(now := s.now + ms));
    case Submit(g, url) => Unseen(s, ApplySubmit(s, g, url));
    case Subscribe(g, scope, url) => Unseen(s, Apply(s, x));
    case StatusChange(tx, snap) => Unseen(s, ApplyStatusChange(s, tx, snap));
  }
}
