/**
 * Termination of retrying. Each task has a measure made of its stored tries and the phase of its
 * attempt; every step of the task lowers it, and after its creation no other step raises it. So a task
 * takes a bounded number of steps in any run, however others interleave and whatever fails.
 */
module WebhookTermination {
  import opened Payloads
  import opened Wrappers
  import opened WebhookState
  import opened WebhookSteps
  import opened WebhookDelivery
  import opened WebhookFanout
  import opened WebhookSignups
  import opened WebhookTransactions
  import opened WebhookHandshakes
  import opened WebhookNonces
  import opened WebhookEndings
  import opened WebhookTheorems

  /** Steps of one round: the timer, the reads, the POST, the answer, the catch block and the rescheduling. */
  const ROUND := 7

  function Offset(phase: Phase): int {
    match phase
    case Reading => -1
    case Drawing(_, _) => -2
    case Loading(_) => -2
    case Awaiting(_, _) => -3
    case Settling(_, _) => -4
    case Retrying(_) => -5
    case Rescheduling => 1
  }

  function Measure(v: View): int {
    if v.flight.attempts != [] then ROUND * v.tries + Offset(v.flight.attempts[0])
    else if Carriers(v) > 0 then ROUND * v.tries
    else 0
  }

  /** What the task can still do: all its rounds before it is created, and its measure from then on. */
  function Potential(v: View): int {
    if v.standing == Absent then ROUND * v.max else Measure(v)
  }

  predicate StepOf(x: Step, t: Task) {
    (x.Fire? || x.Go?) && x.t == t
  }

  lemma MeasureNotNegative(v: View)
    requires ViewOk(v)
    ensures 0 <= Potential(v)
  {
  }

  // ---- steps of the task ----

  /** Every move of an attempt lowers the measure. */
  lemma FittingLowers(v: View, eff: Effect)
    requires ViewOk(v) && v.flight.attempts != [] && Fits(v, v.flight.attempts[0], eff)
    requires Follows(v.flight.attempts[0], eff.next)
    ensures Potential(ViewAfter(v, 0, eff)) < Potential(v)
  {
    assert |v.flight.attempts| == 1;
    assert v.flight.attempts[..0] + v.flight.attempts[1..] == [];
  }

  /** The order of the phases within one round. */
  predicate Follows(phase: Phase, next: Option<Phase>) {
    next.Some? && !phase.Retrying? ==> Offset(next.value) < Offset(phase)
  }

  lemma MoveFollows(s: State, t: Task, phase: Phase, x: Move)
    requires MoveEnabled(t, phase, x)
    ensures Follows(phase, EffectOf(s, t, phase, x).next)
  {
  }

  lemma MoveLowers(s: State, t: Task, k: nat, x: Move)
    requires DeliveryOk(s) && Enabled(s, Go(t, k, x))
    ensures Potential(ViewOf(Apply(s, Go(t, k, x)), t)) < Potential(ViewOf(s, t))
  {
    MoveKeeps(s, t, k, x);
    var v := ViewOf(s, t);
    assert ViewOk(v);
    var eff := EffectOf(s, t, v.flight.attempts[0], x);
    MoveFollows(s, t, v.flight.attempts[0], x);
    hide EffectOf, Fits, Potential, Follows, DeliveryOk, ViewOk;
    FittingLowers(v, eff);
    PerformViews(s, t, eff);
  }

  lemma FireLowers(s: State, t: Task, h: nat)
    requires DeliveryOk(s) && Enabled(s, Fire(t, h))
    ensures Potential(ViewOf(Ring(s, t, h), t)) < Potential(ViewOf(s, t))
  {
    assert ViewOk(ViewOf(s, t));
    RingKeeps(ViewOf(s, t), h);
  }

  // ---- steps of others ----

  lemma LaunchHolds(s: State, s': State, t: Task, t': Task)
    requires DeliveryOk(s) && FlightOf(s, t).newborn
    requires s'.slots == Timed(s.slots, t) && s'.flights == Launched(s.flights, t)
    requires s'.cfg == s.cfg && s'.now == s.now && s'.subs == s.subs && s'.notifs == s.notifs
    ensures Potential(ViewOf(s', t')) <= Potential(ViewOf(s, t'))
  {
    assert ViewOk(ViewOf(s, t));
  }

  lemma UntouchedHolds(s: State, s': State, t: Task)
    requires s'.cfg == s.cfg && s.now <= s'.now && s'.slots == s.slots && s'.flights == s.flights
    requires s'.notifs == s.notifs && SubsAlike(s.subs, s'.subs)
    ensures Potential(ViewOf(s', t)) == Potential(ViewOf(s, t))
  {
    ViewStays(s, s', t);
    hide ViewOf, SubsAlike;
  }

  lemma BirthHolds(s: State, e: Id, i: Id, n: Id, t: Task)
    requires HandlingEnabled(s, e, StoreNotification(i, n)) && DeliveryOk(s)
    ensures Potential(ViewOf(ApplyHandling(s, e, StoreNotification(i, n)), t)) <= Potential(ViewOf(s, t))
  {
    hide JobAfter, AllScheduled;
    assert ViewOk(ViewOf(s, t));
  }

  lemma HandlingHolds(s: State, e: Id, x: Handling, t: Task)
    requires DeliveryOk(s) && DoneTargetsOk(s) && HandlingEnabled(s, e, x)
    ensures Potential(ViewOf(ApplyHandling(s, e, x), t)) <= Potential(ViewOf(s, t))
  {
    hide DeliveryOk, Potential, ViewOf;
    var s' := ApplyHandling(s, e, x);
    if x.StoreNotification? {
      BirthHolds(s, e, x.sub, x.n, t);
    } else if x.ScheduleNotification? {
      LaunchHolds(s, s', Notify(s.jobs[e].creations[x.sub].n), t);
    } else {
      assert x.MarkDone? ==> Confirmed(s, x.sub);
      UntouchedHolds(s, s', t);
    }
  }

  lemma SignupHolds(s: State, g: Id, i: Id, t: Task)
    requires SigningEnabled(s, g, StoreSubscription(i)) && DeliveryOk(s)
    ensures Potential(ViewOf(ApplySigning(s, g, StoreSubscription(i)), t)) <= Potential(ViewOf(s, t))
  {
    assert ViewOk(ViewOf(s, t));
  }

  lemma SigningHolds(s: State, g: Id, x: Signing, t: Task)
    requires DeliveryOk(s) && SignupsOk(s) && SigningEnabled(s, g, x)
    ensures Potential(ViewOf(ApplySigning(s, g, x), t)) <= Potential(ViewOf(s, t))
  {
    hide DeliveryOk, Potential, ViewOf;
    var s' := ApplySigning(s, g, x);
    if x.StoreSubscription? {
      SignupHolds(s, g, x.sub, t);
    } else if x.ScheduleHandshake? {
      assert SignupOk(s, g, s.signups[g]);
      LaunchHolds(s, s', Handshake(s.signups[g].phase.sub), t);
    } else {
      UntouchedHolds(s, s', t);
    }
  }

  /** A step of another task does not concern this one. */
  lemma ElsewhereHolds(s: State, x: Step, t: Task)
    requires DeliveryOk(s) && Enabled(s, x) && (x.Fire? || x.Go?) && x.t != t
    ensures ViewOf(Apply(s, x), t) == ViewOf(s, t)
  {
    if x.Go? {
      MoveKeeps(s, x.t, x.k, x.move);
      assert ViewOk(ViewOf(s, x.t));
      hide EffectOf, Fits, DeliveryOk, Perform;
      PerformViews(s, x.t, EffectOf(s, x.t, FlightOf(s, x.t).attempts[0], x.move));
    }
  }

  /** A step of the task lowers its potential, and no other step raises it. */
  lemma StepLowers(s: State, x: Step, t: Task)
    requires Inv(s) && Enabled(s, x)
    ensures Potential(ViewOf(Apply(s, x), t)) + (if StepOf(x, t) then 1 else 0) <= Potential(ViewOf(s, t))
  {
    DoneTargets(s);
    hide DeliveryOk, FanoutOk, SignupsOk, ScopesOk, StoreOk, StatusesOk, HandshakesOk, NoncesOk, DoneOk, OrphansOk,
      DoneTargetsOk, Potential, ViewOf, EffectOf, ApplyHandling, ApplySigning, Perform, Ring, PayloadOf;
    if x.Go? && x.t == t {
      MoveLowers(s, t, x.k, x.move);
    } else if x.Fire? && x.t == t {
      FireLowers(s, t, x.h);
    } else if x.Go? || x.Fire? {
      ElsewhereHolds(s, x, t);
    } else if x.Handle? {
      HandlingHolds(s, x.e, x.handling, t);
    } else if x.Sign? {
      SigningHolds(s, x.g, x.signing, t);
    } else {
      RestHolds(s, x, t);
    }
  }

  lemma RestHolds(s: State, x: Step, t: Task)
    requires Enabled(s, x) && (x.Tick? || x.Submit? || x.Subscribe? || x.StatusChange?)
    ensures Potential(ViewOf(Apply(s, x), t)) == Potential(ViewOf(s, t))
  {
    hide Potential, ViewOf, PayloadOf;
    UntouchedHolds(s, Apply(s, x), t);
  }

  // ---- whole runs ----

  /** How many of the first `j` steps are steps of the task: its timers that ran out and its attempts' moves. */
  function StepsOf(steps: seq<Step>, j: nat, t: Task): nat
    requires j <= |steps|
  {
    if j == 0 then 0 else StepsOf(steps, j - 1, t) + if StepOf(steps[j - 1], t) then 1 else 0
  }

  lemma {:induction false} Spent(r: Run, j: nat, t: Task)
    requires IsRun(r) && j < |r.states|
    ensures StepsOf(r.steps, j, t) + Potential(ViewOf(r.states[j], t)) <= ROUND * MaxTries(r.states[j].cfg, t)
    ensures r.states[j].cfg == r.states[0].cfg
  {
    hide Inv, Enabled, Apply, ViewOf, Potential;
    if j == 0 {
      AtFirst(r.states[0], t);
    } else {
      Spent(r, j - 1, t);
      RunInv(r, j - 1);
      StepLowers(r.states[j - 1], r.steps[j - 1], t);
      SameConfig(r.states[j - 1], r.steps[j - 1]);
    }
  }

  lemma AtFirst(s: State, t: Task)
    requires Init(s)
    ensures Potential(ViewOf(s, t)) == ROUND * MaxTries(s.cfg, t)
  {
  }

  lemma SameConfig(s: State, x: Step)
    requires Enabled(s, x)
    ensures Apply(s, x).cfg == s.cfg
  {
    hide EffectOf, HandlingEnabled, SigningEnabled, MoveEnabled, PayloadOf;
  }

  /**
   * In every run, the steps that a task has taken and its measure add up to at most seven times its
   * tries; so retrying ends, after at most that many steps of the task.
   */
  lemma RetryingEnds(r: Run, j: nat, t: Task)
    requires IsRun(r) && j < |r.states|
    ensures 0 <= Potential(ViewOf(r.states[j], t))
    ensures StepsOf(r.steps, j, t) + Potential(ViewOf(r.states[j], t)) <= ROUND * MaxTries(r.states[j].cfg, t)
    ensures StepsOf(r.steps, j, t) <= ROUND * MaxTries(r.states[j].cfg, t)
  {
    hide FanoutOk, SignupsOk, ScopesOk, StoreOk, StatusesOk, HandshakesOk, NoncesOk, DoneOk, OrphansOk, IsRun, StepsOf;
    RunInv(r, j);
    MeasureNotNegative(ViewOf(r.states[j], t));
    Spent(r, j, t);
  }

  /** At every step of the task, its measure goes down; at any other, once it exists, it does not go up. */
  lemma MeasureFalls(r: Run, j: nat, t: Task)
    requires IsRun(r) && j < |r.steps| && StandingOf(r.states[j], t) != Absent
    ensures StandingOf(r.states[j + 1], t) != Absent
    ensures var m, m' := Measure(ViewOf(r.states[j], t)), Measure(ViewOf(r.states[j + 1], t));
      if StepOf(r.steps[j], t) then m' < m else m' <= m
  {
    hide Inv, Enabled, Apply, Init, Measure;
    RunInv(r, j);
    StepLowers(r.states[j], r.steps[j], t);
    StatusesMoveOneEdge(r, j);
  }
}
