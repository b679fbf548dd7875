/**
 * Nothing is posted to a subscriber that has not first echoed a secret, and what is posted is the
 * event's own payload, under the notification's own nonce, to the subscription's own URL.
 */
module WebhookHandshakes {
  import opened Payloads
  import opened Wrappers
  import opened WebhookState
  import opened WebhookSteps
  import opened WebhookDelivery
  import opened WebhookEvolution
  import opened WebhookFanout

  /** A POST made for the task; for a handshake, with this secret. */
  predicate PostOf(act: Action, t: Task, secret: string) {
    match t
    case Handshake(i) => act.HandshakePosted? && act.sub == i && act.secret == secret
    case Notify(n) => act.NotificationPosted? && act.notif == n
  }

  ghost predicate Sent(log: seq<Action>, t: Task, secret: string) {
    exists k :: 0 <= k < |log| && PostOf(log[k], t, secret)
  }

  /** An answer with 200 to the task's POST; for a handshake, one that echoes the secret it was sent. */
  predicate GoodAnswer(act: Action, t: Task, secret: string) {
    match t
    case Handshake(i) => act == HandshakeAnswered(i, secret, Response(200, Some(secret)))
    case Notify(n) =>
      act.NotificationAnswered? && act.notif == n && act.response.Response? && act.response.code == 200
  }

  predicate AnswersAt(log: seq<Action>, t: Task, secret: string, j: nat) {
    j < |log| && GoodAnswer(log[j], t, secret)
  }

  /** Some POST of the task got a good answer, after it had been sent. */
  ghost predicate Proved(log: seq<Action>, t: Task) {
    exists secret, j: nat :: AnswersAt(log, t, secret, j) && Sent(log[..j], t, secret)
  }

  lemma SentStays(log: seq<Action>, more: seq<Action>, t: Task, secret: string)
    requires Sent(log, t, secret)
    ensures Sent(log + more, t, secret)
  {
    var k :| 0 <= k < |log| && PostOf(log[k], t, secret);
    assert (log + more)[k] == log[k];
  }

  lemma ProvedStays(log: seq<Action>, more: seq<Action>, t: Task)
    requires Proved(log, t)
    ensures Proved(log + more, t)
  {
    var secret, j: nat :| AnswersAt(log, t, secret, j) && Sent(log[..j], t, secret);
    assert (log + more)[..j] == log[..j];
    assert AnswersAt(log + more, t, secret, j);
  }

  /** An answer that the code accepts is a good answer. */
  lemma AnswerProves(log: seq<Action>, t: Task, secret: string, r: Response)
    requires Sent(log, t, secret) && Accepts(t, secret, r)
    ensures Proved(log + [AnswerAction(t, secret, r)], t)
  {
    var log' := log + [AnswerAction(t, secret, r)];
    assert log'[..|log|] == log && AnswersAt(log', t, secret, |log|);
  }

  // ---- invariant ----

  /** What an attempt remembers is true: its secret was sent, its answer came, its copy is current. */
  ghost predicate PhaseSound(s: State, t: Task, phase: Phase) {
    && (phase.Awaiting? ==> Sent(s.log, t, phase.secret))
    && (phase.Settling? && phase.outcome.Confirm? ==> Proved(s.log, t))
    && (t.Notify? && phase.Loading? ==>
          t.notif in s.notifs && phase.seen.event == s.notifs[t.notif].event && phase.seen.sub == s.notifs[t.notif].sub
          && phase.seen.nonce == s.notifs[t.notif].nonce)
  }

  ghost predicate FlightSound(s: State, t: Task) {
    forall k :: 0 <= k < |FlightOf(s, t).attempts| ==> PhaseSound(s, t, FlightOf(s, t).attempts[k])
  }

  ghost predicate BodyOk(s: State, act: Action) {
    act.NotificationPosted? ==>
      && act.notif in s.notifs
      && var note := s.notifs[act.notif];
         && note.sub in s.subs && note.event in s.events
         && act.url == s.subs[note.sub].url
         && act.body == Body(note.sub, s.events[note.event].eventType, s.events[note.event].scope,
                             s.events[note.event].payload, note.nonce)
  }

  ghost predicate PostsOk(s: State) {
    forall p :: 0 <= p < |s.log| && s.log[p].NotificationPosted? ==>
                  BodyOk(s, s.log[p]) && Proved(s.log[..p], Handshake(s.log[p].body.sub))
  }

  ghost predicate HandshakesOk(s: State) {
    && (forall t :: FlightSound(s, t))
    && (forall t :: StandingOf(s, t) == Won ==> Proved(s.log, t))
    && PostsOk(s)
  }

  // ---- frames ----

  ghost predicate SameContent(a: map<Id, Event>, b: map<Id, Event>) {
    forall e :: e in a ==> e in b && b[e] == a[e].(processed := b[e].processed)
  }

  lemma SoundStays(s: State, s': State, more: seq<Action>, t: Task, phase: Phase)
    requires PhaseSound(s, t, phase) && Evolves(s, s') && s'.log == s.log + more
    ensures PhaseSound(s', t, phase)
  {
    if phase.Awaiting? { SentStays(s.log, more, t, phase.secret); }
    if phase.Settling? && phase.outcome.Confirm? { ProvedStays(s.log, more, t); }
  }

  lemma PostsStay(s: State, s': State, more: seq<Action>)
    requires PostsOk(s) && Evolves(s, s') && SameContent(s.events, s'.events) && s'.log == s.log + more
    requires forall k :: 0 <= k < |more| && more[k].NotificationPosted? ==>
                           BodyOk(s', more[k]) && Proved(s.log + more[..k], Handshake(more[k].body.sub))
    ensures PostsOk(s')
  {
    forall p | 0 <= p < |s'.log| && s'.log[p].NotificationPosted?
      ensures BodyOk(s', s'.log[p]) && Proved(s'.log[..p], Handshake(s'.log[p].body.sub))
    {
      if p < |s.log| {
        assert s'.log[p] == s.log[p] && s'.log[..p] == s.log[..p];
        assert BodyOk(s, s.log[p]);
      } else {
        assert s'.log[..p] == s.log + more[..p - |s.log|];
      }
    }
  }

  ghost predicate OnlyStarts(s: State, s': State, t: Task) {
    forall k :: 0 <= k < |FlightOf(s', t).attempts| ==>
                  FlightOf(s', t).attempts[k] == Reading || FlightOf(s', t).attempts[k] in FlightOf(s, t).attempts
  }

  /** No attempt goes on except to start reading, nobody is newly confirmed, and nothing is posted. */
  lemma HandshakesStay(s: State, s': State, more: seq<Action>)
    requires HandshakesOk(s) && Evolves(s, s') && SameContent(s.events, s'.events)
    requires s'.log == s.log + more && forall k :: 0 <= k < |more| ==> !more[k].NotificationPosted?
    requires forall t :: OnlyStarts(s, s', t)
    requires forall t :: StandingOf(s', t) == Won ==> StandingOf(s, t) == Won
    ensures HandshakesOk(s')
  {
    hide Evolves, PhaseSound, StandingOf, Proved;
    PostsStay(s, s', more);
    forall t ensures FlightSound(s', t) {
      assert OnlyStarts(s, s', t);
      forall k | 0 <= k < |FlightOf(s', t).attempts| ensures PhaseSound(s', t, FlightOf(s', t).attempts[k]) {
        var phase := FlightOf(s', t).attempts[k];
        if phase in FlightOf(s, t).attempts {
          assert FlightSound(s, t);
          SoundStays(s, s', more, t, phase);
        } else {
          ReadingSound(s', t);
        }
      }
    }
    forall t | StandingOf(s', t) == Won ensures Proved(s'.log, t) {
      ProvedStays(s.log, more, t);
    }
  }

  lemma ReadingSound(s: State, t: Task)
    ensures PhaseSound(s, t, Reading)
  {
  }

  // ---- one attempt's step ----

  lemma NextSound(s: State, t: Task, phase: Phase, x: Move)
    requires MoveEnabled(t, phase, x) && PhaseSound(s, t, phase)
    ensures var eff := EffectOf(s, t, phase, x);
      eff.next.Some? ==> PhaseSound(s.(log := s.log + eff.log), t, eff.next.value)
  {
    var eff := EffectOf(s, t, phase, x);
    if eff.log != [] && IsPost(eff.log[0]) {
      assert PostOf((s.log + eff.log)[|s.log|], t, eff.next.value.secret);
    } else if x.Answer? && Accepts(t, phase.secret, x.response) {
      AnswerProves(s.log, t, phase.secret, x.response);
    }
  }

  /** A notification's subscription echoed a secret before. */
  lemma NotifiedProved(s: State, n: Id)
    requires HandshakesOk(s) && FanoutOk(s) && n in s.notifs
    ensures s.notifs[n].sub in s.subs && s.notifs[n].event in s.events && Proved(s.log, Handshake(s.notifs[n].sub))
  {
    assert NotifOk(s, n);
    var e, i := s.notifs[n].event, s.notifs[n].sub;
    assert JobOk(s, e, s.jobs[e]);
    assert CreationOk(s, e, s.jobs[e], i);
    assert Subscribed(s, s.jobs[e].tx, i);
    assert StandingOf(s, Handshake(i)) == Won;
  }

  lemma EffectPosts(s: State, t: Task, phase: Phase, x: Move)
    requires MoveEnabled(t, phase, x) && PhaseSound(s, t, phase)
    requires HandshakesOk(s) && FanoutOk(s)
    ensures var log := EffectOf(s, t, phase, x).log;
      forall k :: 0 <= k < |log| && log[k].NotificationPosted? ==>
                    k == 0 && BodyOk(s, log[k]) && Proved(s.log, Handshake(log[k].body.sub))
  {
    if x.Load? {
      NotifiedProved(s, t.notif);
    }
  }

  lemma PerformOwn(s: State, t: Task, eff: Effect)
    requires |FlightOf(s, t).attempts| == 1 && Evolves(s, Perform(s, t, 0, eff))
    requires eff.next.Some? ==> PhaseSound(s.(log := s.log + eff.log), t, eff.next.value)
    ensures FlightSound(Perform(s, t, 0, eff), t)
  {
    hide PhaseSound, Evolves;
    if eff.next.Some? {
      EvolvesFrom(s, s.(log := s.log + eff.log), Perform(s, t, 0, eff));
      SoundKeepsLog(s.(log := s.log + eff.log), Perform(s, t, 0, eff), t, eff.next.value);
    }
  }

  lemma EvolvesFrom(s: State, from: State, s': State)
    requires Evolves(s, s') && from.subs == s.subs && from.notifs == s.notifs
    ensures Evolves(from, s')
  {
  }

  lemma PerformOther(s: State, t: Task, eff: Effect, t': Task)
    requires |FlightOf(s, t).attempts| == 1 && Evolves(s, Perform(s, t, 0, eff)) && t' != t && FlightSound(s, t')
    ensures FlightSound(Perform(s, t, 0, eff), t')
  {
    hide PhaseSound, Evolves;
    var s' := Perform(s, t, 0, eff);
    forall k | 0 <= k < |FlightOf(s', t').attempts| ensures PhaseSound(s', t', FlightOf(s', t').attempts[k]) {
      SoundStays(s, s', eff.log, t', FlightOf(s, t').attempts[k]);
    }
  }

  lemma MoveFlights(s: State, t: Task, x: Move, t': Task)
    requires DeliveryOk(s) && Enabled(s, Go(t, 0, x)) && Evolves(s, Apply(s, Go(t, 0, x)))
    requires FlightSound(s, t) && FlightSound(s, t')
    ensures FlightSound(Apply(s, Go(t, 0, x)), t')
  {
    var phase := FlightOf(s, t).attempts[0];
    assert ViewOk(ViewOf(s, t));
    assert PhaseSound(s, t, phase);
    hide EffectOf, PhaseSound, Evolves, DeliveryOk, FlightSound, Perform;
    if t' == t {
      NextSound(s, t, phase, x);
      PerformOwn(s, t, EffectOf(s, t, phase, x));
    } else {
      PerformOther(s, t, EffectOf(s, t, phase, x), t');
    }
  }

  lemma SoundKeepsLog(s: State, s': State, t: Task, phase: Phase)
    requires PhaseSound(s, t, phase) && Evolves(s, s') && s'.log == s.log
    ensures PhaseSound(s', t, phase)
  {
    assert s'.log == s.log + [];
    SoundStays(s, s', [], t, phase);
  }

  /** Only settling with a good answer wins. */
  lemma MoveWins(s: State, t: Task, x: Move, t': Task)
    requires Enabled(s, Go(t, 0, x)) && StandingOf(Apply(s, Go(t, 0, x)), t') == Won
    requires PhaseOk(t, FlightOf(s, t).attempts[0], TriesOf(s, t))
    ensures StandingOf(s, t') == Won ||
            (t' == t && FlightOf(s, t).attempts[0].Settling? && FlightOf(s, t).attempts[0].outcome.Confirm?)
  {
  }

  /** What is known of an attempt that is about to move. */
  lemma MoveFacts(s: State, t: Task, k: nat, x: Move)
    requires HandshakesOk(s) && DeliveryOk(s) && FanoutOk(s) && Enabled(s, Go(t, k, x))
    ensures k == 0 && PhaseOk(t, FlightOf(s, t).attempts[0], TriesOf(s, t))
    ensures var phase := FlightOf(s, t).attempts[0]; phase.Settling? && phase.outcome.Confirm? ==> Proved(s.log, t)
    ensures var log := EffectOf(s, t, FlightOf(s, t).attempts[0], x).log;
      forall p :: 0 <= p < |log| && log[p].NotificationPosted? ==>
                    p == 0 && BodyOk(s, log[p]) && Proved(s.log, Handshake(log[p].body.sub))
  {
    MoveKeeps(s, t, k, x);
    var phase := FlightOf(s, t).attempts[0];
    assert FlightSound(s, t) && PhaseSound(s, t, phase);
    assert ViewOk(ViewOf(s, t));
    EffectPosts(s, t, phase, x);
    hide EffectOf, Fits, DeliveryOk, FanoutOk, HandshakesOk, Proved, BodyOk;
  }

  lemma MoveHandshakes(s: State, t: Task, k: nat, x: Move)
    requires HandshakesOk(s) && DeliveryOk(s) && FanoutOk(s) && Enabled(s, Go(t, k, x))
    requires Evolves(s, Apply(s, Go(t, k, x)))
    ensures HandshakesOk(Apply(s, Go(t, k, x)))
  {
    MoveFacts(s, t, k, x);
    hide EffectOf, MoveEnabled, Evolves, DeliveryOk, FanoutOk, PhaseOk, Proved, BodyOk, StandingOf, PostsOk,
      FlightSound;
    var s', log := Apply(s, Go(t, k, x)), EffectOf(s, t, FlightOf(s, t).attempts[0], x).log;
    MovePosts(s, s', log);
    forall t' ensures FlightSound(s', t') {
      MoveFlights(s, t, x, t');
    }
    forall t' | StandingOf(s', t') == Won ensures Proved(s'.log, t') {
      MoveWins(s, t, x, t');
      ProvedStays(s.log, log, t');
    }
  }

  lemma MovePosts(s: State, s': State, log: seq<Action>)
    requires PostsOk(s) && Evolves(s, s') && s'.events == s.events && s'.log == s.log + log
    requires forall k :: 0 <= k < |log| && log[k].NotificationPosted? ==>
                           k == 0 && BodyOk(s, log[k]) && Proved(s.log, Handshake(log[k].body.sub))
    ensures PostsOk(s')
  {
    forall k | 0 <= k < |log| && log[k].NotificationPosted?
      ensures BodyOk(s', log[k]) && Proved(s.log + log[..k], Handshake(log[k].body.sub))
    {
      assert s.log + log[..0] == s.log;
      assert BodyOk(s, log[k]);
    }
    PostsStay(s, s', log);
  }

  lemma HandlingHandshakes(s: State, e: Id, x: Handling)
    requires HandshakesOk(s) && DoneTargetsOk(s) && HandlingEnabled(s, e, x) && Evolves(s, ApplyHandling(s, e, x))
    ensures HandshakesOk(ApplyHandling(s, e, x))
  {
    hide HandshakesOk, Evolves, JobAfter;
    var s' := ApplyHandling(s, e, x);
    assert x.MarkDone? ==> Confirmed(s, x.sub);
    assert s'.log == s.log + [];
    HandshakesStay(s, s', []);
  }

  lemma SigningHandshakes(s: State, g: Id, x: Signing)
    requires HandshakesOk(s) && SigningEnabled(s, g, x) && Evolves(s, ApplySigning(s, g, x))
    ensures HandshakesOk(ApplySigning(s, g, x))
  {
    hide HandshakesOk, Evolves;
    var s' := ApplySigning(s, g, x);
    var more := if x.SetNonce? then [InitialResponse(s.signups[g].phase.sub, 0)] else [];
    assert s'.log == s.log + more;
    HandshakesStay(s, s', more);
  }

  lemma QuietHandshakes(s: State, s': State)
    requires HandshakesOk(s) && s'.subs == s.subs && s'.notifs == s.notifs && s'.log == s.log
    requires SameContent(s.events, s'.events) && forall t :: OnlyStarts(s, s', t)
    ensures HandshakesOk(s')
  {
    hide HandshakesOk, Evolves;
    StandsStill(s, s');
    assert s'.log == s.log + [];
    HandshakesStay(s, s', []);
  }

  lemma RingStarts(s: State, t: Task, h: nat)
    ensures forall t' :: OnlyStarts(s, Ring(s, t, h), t')
  {
  }

  /** Every step keeps what the handshakes proved, and what was posted, true. */
  lemma HandshakesKept(s: State, x: Step)
    requires HandshakesOk(s) && DeliveryOk(s) && FanoutOk(s) && DoneTargetsOk(s) && Enabled(s, x)
    requires Evolves(s, Apply(s, x)) && s.currentEvent + 1 !in s.events
    ensures HandshakesOk(Apply(s, x))
  {
    hide HandshakesOk, DeliveryOk, FanoutOk, DoneTargetsOk, Evolves, EffectOf, Perform, ApplyHandling,
      HandlingEnabled, ApplySigning, SigningEnabled, PayloadOf;
    match x
    case Sign(g, signing) => SigningHandshakes(s, g, signing);
    case Handle(e, handling) => HandlingHandshakes(s, e, handling);
    case Go(t, k, move) => MoveHandshakes(s, t, k, move);
    case StatusChange(tx, snap) => QuietHandshakes(s, ApplyStatusChange(s, tx, snap));
    case Fire(t, h) => RingStarts(s, t, h); QuietHandshakes(s, Ring(s, t, h));
    case Tick(ms) => QuietHandshakes(s, Apply(s, x));
    case Submit(g, url) => QuietHandshakes(s, ApplySubmit(s, g, url));
    case Subscribe(g, scope, url) => QuietHandshakes(s, Apply(s, x));
  }
}
