/**
 * A torn update: the store writes the final status of a task and then the call throws, because the
 * row could not be read back. The attempt takes it for a failure and retries, although the task is
 * settled. This module says exactly when the status it wrote can be undone after that.
 */
module WebhookTorn {
  import opened Payloads
  import opened Wrappers
  import opened WebhookState
  import opened WebhookSteps
  import opened WebhookDelivery
  import opened WebhookFanout
  import opened WebhookSignups
  import opened WebhookTransactions
  import opened WebhookHandshakes
  import opened WebhookNonces
  import opened WebhookEndings
  import opened WebhookTheorems

  /** The only attempt of the task waits for its final update. */
  predicate Settles(s: State, t: Task) {
    |FlightOf(s, t).attempts| == 1 && FlightOf(s, t).attempts[0].Settling?
  }

  /** The update is stored, and the catch block entered all the same. */
  function Tear(s: State, t: Task): State
    requires Settles(s, t)
  {
    var phase := FlightOf(s, t).attempts[0];
    Perform(s, t, 0, Effect(Some(Retrying(phase.tries - 1)), Assign(phase.outcome), false, [], false))
  }

  /** Ordinary steps from a given state on. */
  ghost predicate Path(s: State, q: Run) {
    && |q.states| == |q.steps| + 1 && q.states[0] == s
    && forall k :: 0 <= k < |q.steps| ==>
                     Enabled(q.states[k], q.steps[k]) && q.states[k + 1] == Apply(q.states[k], q.steps[k])
  }

  ghost function End(q: Run): State
    requires q.states != []
  {
    q.states[|q.states| - 1]
  }

  lemma Further(s: State, q: Run, x: Step) returns (q': Run)
    requires Path(s, q) && Enabled(End(q), x)
    ensures Path(s, q') && End(q') == Apply(End(q), x)
  {
    q' := Run(q.states + [Apply(End(q), x)], q.steps + [x]);
    hide Enabled, Apply;
  }

  // ---- it can be undone ----

  /** The task can be retried: its record is there, and a handshake's subscription has not expired. */
  predicate Live(s: State, t: Task) {
    match t
    case Handshake(i) => i in s.subs && !Expired(s.subs[i], s.now)
    case Notify(n) => n in s.notifs
  }

  /** The task's only carrier is an attempt in the given phase. */
  predicate Lone(s: State, t: Task, phase: Phase) {
    FlightOf(s, t).attempts == [phase] && SlotOf(s, t).registered.None? && SlotOf(s, t).timers == {}
  }

  lemma Retries(s: State, t: Task, left: int)
    requires Lone(s, t, Retrying(left)) && Live(s, t) && left != 0
    ensures Enabled(s, Go(t, 0, Retry))
    ensures var s' := Apply(s, Go(t, 0, Retry));
      Lone(s', t, Rescheduling) && Live(s', t) && TriesOf(s', t) == left && s'.now == s.now
  {
  }

  lemma Reschedules(s: State, t: Task)
    requires Lone(s, t, Rescheduling) && Live(s, t)
    ensures Enabled(s, Go(t, 0, Reschedule))
    ensures var s' := Apply(s, Go(t, 0, Reschedule)); var h := SlotOf(s, t).next;
      && FlightOf(s', t).attempts == [] && SlotOf(s', t).timers == {h} && SlotOf(s', t).registered == Some(h)
      && Live(s', t) && TriesOf(s', t) == TriesOf(s, t)
  {
  }

  lemma Rings(s: State, t: Task, h: nat)
    requires FlightOf(s, t).attempts == [] && SlotOf(s, t).timers == {h} && SlotOf(s, t).registered == Some(h)
    requires Live(s, t)
    ensures Enabled(s, Fire(t, h))
    ensures var s' := Apply(s, Fire(t, h)); Lone(s', t, Reading) && Live(s', t) && TriesOf(s', t) == TriesOf(s, t)
  {
  }

  predicate Reads(t: Task, phase: Phase, tries: int) {
    match t
    case Handshake(_) => phase.Drawing? && phase.tries == tries
    case Notify(_) => phase.Loading? && phase.seen.triesLeft == tries
  }

  lemma ReadsAgain(s: State, t: Task) returns (phase: Phase)
    requires Lone(s, t, Reading) && Live(s, t)
    ensures Enabled(s, Go(t, 0, Read)) && Reads(t, phase, TriesOf(s, t))
    ensures var s' := Apply(s, Go(t, 0, Read)); Lone(s', t, phase) && Live(s', t) && TriesOf(s', t) == TriesOf(s, t)
  {
    phase := EffectOf(s, t, Reading, Read).next.value;
  }

  function Failing(t: Task): Move {
    match t
    case Handshake(_) => DrawFails
    case Notify(_) => LoadFails
  }

  lemma FailsAgain(s: State, t: Task, phase: Phase, tries: int)
    requires Lone(s, t, phase) && Live(s, t) && Reads(t, phase, tries)
    ensures Enabled(s, Go(t, 0, Failing(t)))
    ensures var s' := Apply(s, Go(t, 0, Failing(t))); Lone(s', t, Retrying(tries - 1)) && Live(s', t)
  {
  }

  /** One more round of the retry loop, in which everything fails. */
  lemma Round(s: State, q: Run, t: Task, left: nat) returns (q': Run)
    requires Path(s, q) && Lone(End(q), t, Retrying(left)) && Live(End(q), t) && left > 0
    ensures Path(s, q') && Lone(End(q'), t, Retrying(left - 1)) && Live(End(q'), t)
  {
    hide Enabled, Apply, Lone, Live, TriesOf, FlightOf, SlotOf;
    Retries(End(q), t, left);
    q' := Further(s, q, Go(t, 0, Retry));
    Reschedules(End(q'), t);
    var h := SlotOf(End(q'), t).next;
    q' := Further(s, q', Go(t, 0, Reschedule));
    Rings(End(q'), t, h);
    q' := Further(s, q', Fire(t, h));
    var phase := ReadsAgain(End(q'), t);
    q' := Further(s, q', Go(t, 0, Read));
    FailsAgain(End(q'), t, phase, left);
    q' := Further(s, q', Go(t, 0, Failing(t)));
  }

  lemma LastRetry(s: State, t: Task)
    requires Lone(s, t, Retrying(0)) && StandingOf(s, t) != Absent
    ensures Enabled(s, Go(t, 0, Retry)) && StandingOf(Apply(s, Go(t, 0, Retry)), t) == Standing.Lost
  {
  }

  lemma {:induction false} Undone(s: State, q: Run, t: Task, left: nat) returns (q': Run)
    requires Path(s, q) && Lone(End(q), t, Retrying(left)) && StandingOf(End(q), t) != Absent
    requires left > 0 ==> Live(End(q), t)
    ensures Path(s, q') && StandingOf(End(q'), t) == Standing.Lost
    decreases left
  {
    hide Enabled, Apply, Lone;
    if left == 0 {
      LastRetry(End(q), t);
      q' := Further(s, q, Go(t, 0, Retry));
    } else {
      q' := Round(s, q, t, left);
      assert StandingOf(End(q'), t) != Absent;
      q' := Undone(s, q', t, left - 1);
    }
  }

  // ---- it cannot be undone ----

  /** Phases in which an attempt at an expired handshake can be, with a try left. */
  predicate Idle(phase: Phase) {
    (phase.Retrying? && phase.left != 0) || phase.Rescheduling? || phase.Reading?
  }

  /** The subscription is confirmed and has expired, and no attempt at its handshake is past reading. */
  ghost predicate Safe(s: State, i: Id) {
    && i in s.subs && s.subs[i].status in {Active, Done} && Expired(s.subs[i], s.now)
    && forall k :: 0 <= k < |FlightOf(s, Handshake(i)).attempts| ==> Idle(FlightOf(s, Handshake(i)).attempts[k])
  }

  /** What an attempt at an expired handshake does next is harmless. */
  lemma IdleEffect(s: State, i: Id, phase: Phase, x: Move)
    requires i in s.subs && Expired(s.subs[i], s.now) && Idle(phase) && MoveEnabled(Handshake(i), phase, x)
    ensures var eff := EffectOf(s, Handshake(i), phase, x);
      && (eff.next.Some? ==> Idle(eff.next.value))
      && (eff.change.Keep? || (eff.change.Charge? && eff.change.left != 0))
  {
  }

  lemma FlightIdle(f: Flight, k: nat, eff: Effect)
    requires k < |f.attempts| && forall j :: 0 <= j < |f.attempts| ==> Idle(f.attempts[j])
    requires eff.next.Some? ==> Idle(eff.next.value)
    ensures forall j :: 0 <= j < |Fly(f, k, eff).attempts| ==> Idle(Fly(f, k, eff).attempts[j])
  {
  }

  lemma PerformSafe(s: State, k: nat, eff: Effect, i: Id)
    requires Safe(s, i) && k < |FlightOf(s, Handshake(i)).attempts|
    requires eff.next.Some? ==> Idle(eff.next.value)
    requires eff.change.Keep? || (eff.change.Charge? && eff.change.left != 0)
    ensures Safe(Perform(s, Handshake(i), k, eff), i)
  {
    FlightIdle(FlightOf(s, Handshake(i)), k, eff);
    hide Fly, Idle;
  }

  lemma MoveSafe(s: State, t: Task, k: nat, x: Move, i: Id)
    requires Safe(s, i) && Enabled(s, Go(t, k, x))
    ensures Safe(Apply(s, Go(t, k, x)), i)
  {
    var phase := FlightOf(s, t).attempts[k];
    if t == Handshake(i) {
      IdleEffect(s, i, phase, x);
      hide EffectOf, MoveEnabled, Perform, Safe;
      PerformSafe(s, k, EffectOf(s, t, phase, x), i);
    } else {
      hide EffectOf, MoveEnabled, Fly, Idle;
      assert FlightOf(Apply(s, Go(t, k, x)), Handshake(i)) == FlightOf(s, Handshake(i));
    }
  }

  lemma HandlingSafe(s: State, e: Id, x: Handling, i: Id)
    requires Safe(s, i) && HandlingEnabled(s, e, x)
    ensures Safe(ApplyHandling(s, e, x), i)
  {
    hide JobAfter, AllScheduled, HandlingEnabled, Idle;
    assert FlightOf(ApplyHandling(s, e, x), Handshake(i)) == FlightOf(s, Handshake(i));
  }

  lemma SigningSafe(s: State, g: Id, x: Signing, i: Id)
    requires Safe(s, i) && SigningEnabled(s, g, x)
    ensures Safe(ApplySigning(s, g, x), i)
  {
    hide Idle;
    assert FlightOf(ApplySigning(s, g, x), Handshake(i)).attempts == FlightOf(s, Handshake(i)).attempts;
  }

  lemma StepSafe(s: State, x: Step, i: Id)
    requires Safe(s, i) && Enabled(s, x)
    ensures Safe(Apply(s, x), i)
  {
    hide ApplyHandling, ApplySigning, EffectOf, PayloadOf;
    if x.Go? {
      hide Apply, Safe;
      MoveSafe(s, x.t, x.k, x.move, i);
    } else if x.Handle? {
      HandlingSafe(s, x.e, x.handling, i);
    } else if x.Sign? {
      SigningSafe(s, x.g, x.signing, i);
    } else if x.Fire? {
      RingSafe(s, x.t, x.h, i);
    } else {
      assert FlightOf(Apply(s, x), Handshake(i)) == FlightOf(s, Handshake(i));
    }
  }

  lemma RingSafe(s: State, t: Task, h: nat, i: Id)
    requires Safe(s, i)
    ensures Safe(Ring(s, t, h), i)
  {
    var before, after := FlightOf(s, Handshake(i)).attempts, FlightOf(Ring(s, t, h), Handshake(i)).attempts;
    assert after == before || after == before + [Reading];
    hide Ring;
  }

  lemma {:induction false} StaysSafe(s: State, q: Run, k: nat, i: Id)
    requires Path(s, q) && Safe(s, i) && k < |q.states|
    ensures Safe(q.states[k], i)
  {
    hide Enabled, Apply, Safe;
    if k > 0 {
      StaysSafe(s, q, k - 1, i);
      StepSafe(q.states[k - 1], q.steps[k - 1], i);
    }
  }

  // ---- exactly when ----

  /** What holds right after the update was torn. */
  lemma AfterTear(s: State, t: Task)
    requires DeliveryOk(s) && Settles(s, t)
    ensures FlightOf(s, t).attempts[0].tries >= 1
    ensures Lone(Tear(s, t), t, Retrying(FlightOf(s, t).attempts[0].tries - 1)) && Tear(s, t).now == s.now
    ensures StandingOf(Tear(s, t), t) in {Won, Void} && (t.Handshake? ==> StandingOf(Tear(s, t), t) == Won)
    ensures t.Handshake? ==> t.sub in s.subs && Tear(s, t).subs == s.subs[t.sub := s.subs[t.sub].(status := Active)]
  {
    hide DeliveryOk, Tear, Lone, StandingOf, FlightOf, SlotOf;
    SettlingView(s, t);
    TearIs(s, t);
  }

  lemma RunDelivers(r: Run)
    requires IsRun(r)
    ensures DeliveryOk(r.states[|r.states| - 1])
  {
    hide Enabled, Apply, Init, DeliveryOk, FanoutOk, SignupsOk, ScopesOk, StoreOk, StatusesOk, HandshakesOk, NoncesOk,
      DoneOk, OrphansOk;
    RunInv(r, |r.states| - 1);
  }

  lemma TearIs(s: State, t: Task)
    requires Settles(s, t) && StandingOf(s, t) == Waiting && SlotOf(s, t).registered.None? && SlotOf(s, t).timers == {}
    requires t.Handshake? ==> FlightOf(s, t).attempts[0].outcome.Confirm?
    ensures Lone(Tear(s, t), t, Retrying(FlightOf(s, t).attempts[0].tries - 1)) && Tear(s, t).now == s.now
    ensures StandingOf(Tear(s, t), t) in {Won, Void} && (t.Handshake? ==> StandingOf(Tear(s, t), t) == Won)
    ensures t.Handshake? ==> t.sub in s.subs && Tear(s, t).subs == s.subs[t.sub := s.subs[t.sub].(status := Active)]
  {
  }

  lemma SettlingView(s: State, t: Task)
    requires DeliveryOk(s) && Settles(s, t)
    ensures StandingOf(s, t) == Waiting && SlotOf(s, t).registered.None? && SlotOf(s, t).timers == {}
    ensures FlightOf(s, t).attempts[0].tries >= 1
    ensures t.Handshake? ==> FlightOf(s, t).attempts[0].outcome.Confirm?
  {
    assert ViewOk(ViewOf(s, t));
  }

  /** The attempt has a try left after this one, and its subscription has expired. */
  predicate Spared(s: State, t: Task)
    requires Settles(s, t)
  {
    t.Handshake? && FlightOf(s, t).attempts[0].tries > 1 && t.sub in s.subs && Expired(s.subs[t.sub], s.now)
  }

  /**
   * At the end of any run, a torn final update of a task can be undone by ordinary steps, the confirmed
   * subscription being rejected or the settled notification failed, unless it is the handshake of an
   * expired subscription and not its last try; and then it cannot.
   */
  lemma TornIsUndoneIff(r: Run, t: Task)
    requires IsRun(r) && Settles(r.states[|r.states| - 1], t)
    ensures var s := r.states[|r.states| - 1];
      !Spared(s, t) <==> exists q :: Path(Tear(s, t), q) && StandingOf(End(q), t) == Standing.Lost
  {
    var s := r.states[|r.states| - 1];
    RunDelivers(r);
    hide IsRun, DeliveryOk;
    AfterTear(s, t);
    var s' := Tear(s, t);
    var left := FlightOf(s, t).attempts[0].tries - 1;
    if Spared(s, t) {
      assert Safe(s', t.sub);
      forall q | Path(s', q) ensures StandingOf(End(q), t) != Standing.Lost {
        hide Tear;
        StaysSafe(s', q, |q.states| - 1, t.sub);
      }
    } else {
      var start := Run([s'], []);
      assert Path(s', start) && End(start) == s';
      hide Tear, Enabled, Apply;
      var q := Undone(s', start, t, left);
    }
  }
}
