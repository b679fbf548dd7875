/**
 * Windows. A listener that has done something outside and not yet settled its message is in a window:
 * if it crashes there, and the message has a delivery left, the broker delivers it again and the same
 * is done once more.
 */
module OfflineWindows {
  import opened Wrappers
  import opened OfflineModel
  import opened OfflineProofs

  /** After the manager signed, after the chain included the submission, after the result was stored. */
  datatype Window = AfterSigning | AfterChain | AfterSending

  predicate In(win: Window, work: Work) {
    match win
    case AfterSigning => work.body.Request? && (work.phase.PublishingSignature? || work.phase.Accepting?)
    case AfterChain =>
      work.body.Signature? && (work.phase.PublishingResult? || work.phase.Updating? || work.phase.Accepting?)
    case AfterSending => work.phase.Updating? || work.phase.Accepting?
  }

  /** The turn that leads into the window. */
  predicate Enters(win: Window, x: Turn) {
    match win
    case AfterSigning => x.SignerReplied? && x.signature.Some?
    case AfterChain => x.ChainReplied? && x.included
    case AfterSending => (x.SignatureSent? || x.ResultSent?) && x.stored
  }

  /** A crash of worker `w` now lets the broker deliver again what has led into the window. */
  predicate Harmful(s: State, w: nat, win: Window) {
    w in s.workers && In(win, s.workers[w]) && AttemptsOf(s, s.workers[w].m) < MAX_DELIVERY_ATTEMPTS
  }

  predicate HarmfulCrash(r: Run, k: nat, win: Window) {
    k < |r.steps| && k < |r.states| && r.steps[k].Crash? && Harmful(r.states[k], r.steps[k].w, win)
  }

  // ---- which messages can still lead into the window ----

  ghost predicate HeldIn(s: State, m: MsgId, win: Window) {
    exists w :: w in s.workers && s.workers[w].m == m && In(win, s.workers[w])
  }

  /** Its worker is not in the window yet, or it can be delivered. */
  ghost predicate CanAct(s: State, m: MsgId, win: Window) {
    m in s.queue && !HeldIn(s, m, win) && (Held(s, m) || AttemptsOf(s, m) < MAX_DELIVERY_ATTEMPTS)
  }

  lemma CanActIsQueued(s: State, win: Window)
    ensures forall m :: CanAct(s, m, win) ==> m in s.queue
  {
  }

  // ---- steps ----

  /** The other workers go on holding what they hold. */
  lemma OtherWorkers(s: State, w: nat, x: Turn, m: MsgId, win: Window)
    requires WorkersOk(s) && w in s.workers && TurnEnabled(s.workers[w], x) && m != s.workers[w].m
    ensures HeldIn(ApplyTurn(s, w, x), m, win) <==> HeldIn(s, m, win)
    ensures Held(ApplyTurn(s, w, x), m) <==> Held(s, m)
  {
    hide WorkOk, TurnEnabled, NextPhase, QueueAfter, ActsOf, RecordsAfter, UpdatesAfter, SignedAfter;
    var s' := ApplyTurn(s, w, x);
    forall v | v != w ensures v in s'.workers <==> v in s.workers {}
    assert forall v :: v in s.workers && v != w ==> s'.workers[v] == s.workers[v];
    assert w in s'.workers ==> s'.workers[w].m == s.workers[w].m;
    if HeldIn(s, m, win) {
      var v :| v in s.workers && s.workers[v].m == m && In(win, s.workers[v]);
      assert v in s'.workers && s'.workers[v] == s.workers[v];
    }
    if Held(s, m) {
      var v :| v in s.workers && s.workers[v].m == m;
      assert v in s'.workers && s'.workers[v] == s.workers[v];
    }
  }

  lemma QueueStays(s: State, w: nat, x: Turn, m: MsgId)
    requires w in s.workers && TurnEnabled(s.workers[w], x) && m in ApplyTurn(s, w, x).queue && m != s.next
    ensures m in s.queue && ApplyTurn(s, w, x).queue[m] == s.queue[m]
    ensures AttemptsOf(ApplyTurn(s, w, x), m) == AttemptsOf(s, m)
  {
    hide ActsOf, RecordsAfter, UpdatesAfter, SignedAfter, WorkersAfter, NextPhase, TurnEnabled;
  }

  /** A listener's message can lead into the window until the listener has entered it. */
  lemma OwnMessage(s: State, w: nat, x: Turn, win: Window)
    requires WorkersOk(s) && w in s.workers && TurnEnabled(s.workers[w], x)
    ensures var s', m := ApplyTurn(s, w, x), s.workers[w].m;
      && (CanAct(s', m, win) && m != s.next ==> CanAct(s, m, win))
      && (Enters(win, x) ==> CanAct(s, m, win) && (m != s.next ==> !CanAct(s', m, win)))
  {
    var s', work := ApplyTurn(s, w, x), s.workers[w];
    assert WorkOk(s, work) && Held(s, work.m);
    assert In(win, work) <==> HeldIn(s, work.m, win);
    hide ActsOf, RecordsAfter, UpdatesAfter, SignedAfter, WorkOk, Held;
    if !Settles(work, x) {
      assert w in s'.workers && s'.workers[w] == work.(phase := NextPhase(work, x).value);
    } else {
      assert work.m !in s'.queue || work.m == s.next;
    }
  }

  /** After a turn, nothing but a message it stored can act that could not before. */
  lemma TurnActsLess(s: State, w: nat, x: Turn, win: Window)
    requires Inv(s) && w in s.workers && TurnEnabled(s.workers[w], x)
    ensures var s' := ApplyTurn(s, w, x);
      forall m :: m != s.next && CanAct(s', m, win) ==> CanAct(s, m, win) && s'.queue[m] == s.queue[m]
  {
    hide ApplyTurn, TurnEnabled, WorkOk, QueueOk, LogOk, RowsOk, NothingLost, HeldIn, Held;
    OwnMessage(s, w, x, win);
    forall m | m != s.next && CanAct(ApplyTurn(s, w, x), m, win)
      ensures CanAct(s, m, win) && ApplyTurn(s, w, x).queue[m] == s.queue[m]
    {
      QueueStays(s, w, x, m);
      if m != s.workers[w].m { OtherWorkers(s, w, x, m, win); }
    }
  }

  lemma BeginActsLess(s: State, id: TxId, signable: Signable, metadata: map<string, string>, win: Window)
    ensures var s' := ApplyBegin(s, id, signable, metadata);
      forall m :: m != s.next && CanAct(s', m, win) ==> CanAct(s, m, win) && s'.queue[m] == s.queue[m]
  {
    var s' := ApplyBegin(s, id, signable, metadata);
    assert forall m :: (HeldIn(s', m, win) <==> HeldIn(s, m, win)) && (Held(s', m) <==> Held(s, m));
  }

  /** Deliveries, harmless crashes, the broker's giving up, and writes. */
  lemma OtherActsLess(s: State, x: Step, win: Window)
    requires Inv(s) && Enabled(s, x) && !x.Begin? && !x.Proceed? && !(x.Crash? && Harmful(s, x.w, win))
    ensures var s' := Apply(s, x);
      && s'.log == s.log && s'.next == s.next
      && (forall m :: CanAct(s', m, win) ==> CanAct(s, m, win) && s'.queue[m] == s.queue[m])
  {
    hide QueueOk, LogOk, RowsOk, NothingLost, Sound, WorkOk;
    var s' := Apply(s, x);
    forall m | CanAct(s', m, win) ensures CanAct(s, m, win) && s'.queue[m] == s.queue[m] {
      if x.Deliver? || x.Crash? {
        OtherHolders(s, x, m, win);
      } else {
        assert HeldIn(s', m, win) <==> HeldIn(s, m, win);
        assert Held(s', m) <==> Held(s, m);
      }
    }
  }

  lemma OtherHolders(s: State, x: Step, m: MsgId, win: Window)
    requires WorkersOk(s) && Enabled(s, x) && CanAct(Apply(s, x), m, win)
    requires x.Deliver? || (x.Crash? && !Harmful(s, x.w, win))
    ensures CanAct(s, m, win)
  {
    hide WorkOk;
    var s' := Apply(s, x);
    assert AttemptsOf(s, m) <= AttemptsOf(s', m);
    if Held(s', m) && !(x.Deliver? && x.m == m) {
      var u :| u in s'.workers && s'.workers[u].m == m;
      assert u in s.workers && s.workers[u].m == m;
    }
    forall v | v in s.workers && s.workers[v].m == m ensures !In(win, s.workers[v]) {
      if x.Crash? && x.w == v {
        assert forall u :: u in s'.workers ==> u in s.workers && u != v && s'.workers[u] == s.workers[u];
      } else {
        assert v in s'.workers && s'.workers[v] == s.workers[v];
      }
    }
  }

  // ---- runs that go on ----

  ghost function Last(r: Run): State
    requires IsRun(r)
  {
    r.states[|r.states| - 1]
  }

  /** `q` goes on from `r` without a harmful crash. */
  ghost predicate GoesOn(r: Run, q: Run, win: Window) {
    && IsRun(q) && r.states <= q.states && r.steps <= q.steps
    && forall k :: |r.steps| <= k < |q.steps| ==> !HarmfulCrash(q, k, win)
  }

  /** `q` goes on from `r` without any crash. */
  ghost predicate Calm(r: Run, q: Run) {
    && IsRun(q) && r.states <= q.states && r.steps <= q.steps
    && forall k :: |r.steps| <= k < |q.steps| ==> !q.steps[k].Crash?
  }

  lemma CalmGoesOn(r: Run, q: Run, win: Window)
    requires Calm(r, q)
    ensures GoesOn(r, q, win)
  {
    hide IsRun, Harmful;
  }

  function Append(r: Run, s: State, x: Step): Run {
    Run(r.states + [s], r.steps + [x])
  }

  lemma AppendIsRun(r: Run, x: Step)
    requires IsRun(r) && Enabled(Last(r), x)
    ensures IsRun(Append(r, Apply(Last(r), x), x)) && Last(Append(r, Apply(Last(r), x), x)) == Apply(Last(r), x)
  {
    hide Enabled, Apply;
  }

  lemma GoesOneFurther(r: Run, q: Run, x: Step) returns (q': Run)
    requires Calm(r, q) && Enabled(Last(q), x) && !x.Crash?
    ensures Calm(r, q') && Last(q') == Apply(Last(q), x)
  {
    q' := Append(q, Apply(Last(q), x), x);
    AppendIsRun(q, x);
    hide Enabled, Apply, IsRun;
  }

  lemma InvHasWork(s: State, w: nat)
    requires Inv(s) && w in s.workers
    ensures WorkOk(s, s.workers[w])
  {
    hide WorkOk;
  }

  // ---- the same message once more ----

  /** A worker that has just been given the message. */
  ghost predicate JustDelivered(s: State, w: nat, body: Message) {
    w in s.workers && s.workers[w].phase.Validating? && s.workers[w].body == body
  }

  lemma Turned(r: Run, q: Run, w: nat, x: Turn) returns (q': Run)
    requires Calm(r, q) && w in Last(q).workers && TurnEnabled(Last(q).workers[w], x) && !x.Accepted?
    requires NextPhase(Last(q).workers[w], x).Some?
    ensures Calm(r, q') && Last(q').log == Last(q).log + ActsOf(Last(q).workers[w], x)
    ensures Last(q').attempts == Last(q).attempts
    ensures w in Last(q').workers
    ensures Last(q').workers[w] == Last(q).workers[w].(phase := NextPhase(Last(q).workers[w], x).value)
  {
    q' := GoesOneFurther(r, q, Proceed(w, x));
    hide Calm, NextPhase, ActsOf, TurnEnabled, QueueAfter, SignedAfter, RecordsAfter, UpdatesAfter, IsRun;
    assert Apply(Last(q), Proceed(w, x)) == ApplyTurn(Last(q), w, x);
  }

  lemma SignsAgain(r: Run, q: Run, w: nat, body: Message) returns (q': Run)
    requires Calm(r, q) && JustDelivered(Last(q), w, body) && body.Request?
    ensures Calm(r, q')
    ensures Last(q').log == Last(q).log + [Made(Last(q).workers[w].m, "signature")] + [Forwarded(body.id, "signature")]
    ensures Last(q').attempts == Last(q).attempts
    ensures w in Last(q').workers && Last(q').workers[w] == Last(q).workers[w].(phase := Accepting)
  {
    hide Calm, IsRun;
    q' := Turned(r, q, w, Validated(true));
    q' := Turned(r, q', w, SignerReplied(Some("signature")));
    q' := Turned(r, q', w, SignatureSent(true, true));
  }

  lemma SubmitsAgain(r: Run, q: Run, w: nat, body: Message) returns (q': Run, act: Act, act': Act)
    requires Calm(r, q) && JustDelivered(Last(q), w, body) && body.Signature?
    ensures Calm(r, q') && Last(q').log == Last(q).log + [act] + [act']
    ensures act.Submitted? && act.m == Last(q).workers[w].m && act'.Published? && act'.fin.id == body.id
  {
    var result, m := ChainResult("", "", ""), Last(q).workers[w].m;
    hide Calm, IsRun;
    q' := Turned(r, q, w, Validated(true));
    q' := Turned(r, q', w, RowCreated(Some(0)));
    act := Submitted(m, body.payload, body.signature);
    q' := Turned(r, q', w, ChainReplied(true, Some(result)));
    act' := Published(FinalizationOf(NewRow(body), result));
    q' := Turned(r, q', w, ResultSent(true, true));
  }

  ghost function Crashed(r: Run, w: nat): Run
    requires IsRun(r) && w in Last(r).workers
  {
    Append(r, Apply(Last(r), Crash(w)), Crash(w))
  }

  lemma CrashFrees(s: State, w: nat)
    requires Inv(s) && w in s.workers
    ensures var s', m := Apply(s, Crash(w)), s.workers[w].m;
      && m in s'.queue && s'.queue[m] == s.workers[w].body && !Held(s', m) && w !in s'.workers
      && AttemptsOf(s', m) == AttemptsOf(s, m) && s'.log == s.log
  {
    InvHasWork(s, w);
    hide QueueOk, LogOk, RowsOk, NothingLost;
  }

  lemma DeliveredIs(s: State, w: nat, m: MsgId)
    requires m in s.queue && !Held(s, m) && w !in s.workers && AttemptsOf(s, m) < MAX_DELIVERY_ATTEMPTS
    ensures Enabled(s, Deliver(w, m))
    ensures var s' := Apply(s, Deliver(w, m));
      JustDelivered(s', w, s.queue[m]) && s'.workers[w].m == m && s'.log == s.log
  {
  }

  /** After the crash, the message is delivered again. */
  lemma Redelivered(r: Run, w: nat) returns (q: Run)
    requires IsRun(r) && w in Last(r).workers && AttemptsOf(Last(r), Last(r).workers[w].m) < MAX_DELIVERY_ATTEMPTS
    ensures Calm(Crashed(r, w), q) && Last(q).log == Last(r).log
    ensures JustDelivered(Last(q), w, Last(r).workers[w].body) && Last(q).workers[w].m == Last(r).workers[w].m
  {
    hide Apply, Inv, Held, JustDelivered;
    var c, m := Crashed(r, w), Last(r).workers[w].m;
    RunInv(r, |r.states| - 1);
    CrashFrees(Last(r), w);
    AppendIsRun(r, Crash(w));
    hide IsRun, Enabled;
    DeliveredIs(Last(c), w, m);
    assert Calm(c, c);
    q := GoesOneFurther(c, c, Deliver(w, m));
  }

  lemma HarmlessAfter(r: Run, w: nat, q: Run, win: Window)
    requires IsRun(r) && w in Last(r).workers && !Harmful(Last(r), w, win) && GoesOn(Crashed(r, w), q, win)
    requires forall k :: 0 <= k < |r.steps| ==> !HarmfulCrash(r, k, win)
    ensures forall k :: 0 <= k < |q.steps| ==> !HarmfulCrash(q, k, win)
  {
    var c := Crashed(r, w);
    hide Harmful, Apply, Enabled;
    forall k | 0 <= k < |q.steps| ensures !HarmfulCrash(q, k, win) {
      if k < |r.steps| {
        assert q.steps[k] == c.steps[k] == r.steps[k] && q.states[k] == c.states[k] == r.states[k];
        assert !HarmfulCrash(r, k, win);
      } else if k == |r.steps| {
        assert q.steps[k] == c.steps[k] == Crash(w) && q.states[k] == c.states[k] == Last(r);
      }
    }
  }
}
