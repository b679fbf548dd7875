/**
 * How often one transaction is signed and finalized. The queues promise at least one delivery, not
 * exactly one. A listener that has published and not yet settled is in a window: a crash there makes
 * the broker deliver again, and only a crash there can make a transaction be published twice.
 */
module OfflineOnce {
  import opened OfflineModel
  import opened OfflineProofs
  import opened OfflineWindows

  // ---- once ----

  ghost predicate ForwardedIn(log: seq<Act>, id: TxId) {
    exists j :: 0 <= j < |log| && log[j].Forwarded? && log[j].id == id
  }

  predicate Repeats(a: Act, b: Act) {
    (a.Forwarded? && b.Forwarded? && a.id == b.id) || (a.Published? && b.Published? && a.fin.id == b.fin.id)
  }

  /** No transaction had two signatures stored, and none two finalizations. */
  ghost predicate Once(log: seq<Act>) {
    forall i, j :: 0 <= i < j < |log| ==> !Repeats(log[i], log[j])
  }

  predicate Has(s: State, m: MsgId) {
    m in s.queue || m in s.dead
  }

  function MessageOf(s: State, m: MsgId): Message
    requires Has(s, m)
  {
    if m in s.queue then s.queue[m] else s.dead[m]
  }

  /** Of one transaction, there is at most one request and at most one signature. */
  ghost predicate OneEach(s: State) {
    forall m, m' ::
      (Has(s, m) && Has(s, m') && MessageOf(s, m).id == MessageOf(s, m').id
       && MessageOf(s, m).Signature? == MessageOf(s, m').Signature?)
      ==> m == m'
  }

  // ---- invariant ----

  ghost predicate Traced(s: State) {
    && (forall m :: Has(s, m) && MessageOf(s, m).Signature? ==> ForwardedIn(s.log, MessageOf(s, m).id))
    && (forall id :: DoneIn(s.log, id) ==> ForwardedIn(s.log, id))
  }

  /** What can still send has not sent. */
  ghost predicate Unspent(s: State) {
    forall m :: CanAct(s, m, AfterSending) ==>
                  if s.queue[m].Request? then !ForwardedIn(s.log, s.queue[m].id) else !DoneIn(s.log, s.queue[m].id)
  }

  ghost predicate OnceOk(s: State) {
    OneEach(s) && Traced(s) && Unspent(s) && Once(s.log)
  }

  // ---- steps that publish nothing ----

  lemma SameTraces(log: seq<Act>, act: Act, id: TxId)
    ensures ForwardedIn(log + [act], id) <==> ForwardedIn(log, id) || (act.Forwarded? && act.id == id)
    ensures DoneIn(log + [act], id) <==> DoneIn(log, id) || (act.Published? && act.fin.id == id)
  {
    var log' := log + [act];
    assert log'[|log|] == act;
    assert forall j :: 0 <= j < |log| ==> log'[j] == log[j];
    assert ForwardedIn(log, id) ==> ForwardedIn(log', id) by {
      if j :| 0 <= j < |log| && log[j].Forwarded? && log[j].id == id { assert log'[j].Forwarded?; }
    }
    assert DoneIn(log, id) ==> DoneIn(log', id) by {
      if j :| 0 <= j < |log| && log[j].Published? && log[j].fin.id == id { assert log'[j].Published?; }
    }
  }

  ghost predicate NoNewTrace(log: seq<Act>, log': seq<Act>) {
    log' == log || (|log'| == |log| + 1 && log' == log + [log'[|log|]] && (log'[|log|].Submitted? || log'[|log|].Made?))
  }

  /** No message appears, none can send that could not, and nothing is published. */
  lemma OnceStays(s: State, s': State)
    requires OnceOk(s) && NoNewTrace(s.log, s'.log)
    requires forall m :: Has(s', m) ==> Has(s, m) && MessageOf(s', m) == MessageOf(s, m)
    requires forall m :: CanAct(s', m, AfterSending) ==> CanAct(s, m, AfterSending) && s'.queue[m] == s.queue[m]
    ensures OnceOk(s')
  {
    hide CanAct, Has, MessageOf;
    if s'.log != s.log {
      forall id ensures ForwardedIn(s'.log, id) == ForwardedIn(s.log, id) && DoneIn(s'.log, id) == DoneIn(s.log, id) {
        SameTraces(s.log, s'.log[|s.log|], id);
      }
    }
    CanActIsQueued(s, AfterSending);
    CanActIsQueued(s', AfterSending);
    hide ForwardedIn, DoneIn;
  }

  lemma TurnMessages(s: State, w: nat, x: Turn)
    requires QueueOk(s) && w in s.workers && WorkOk(s, s.workers[w]) && TurnEnabled(s.workers[w], x)
    ensures var s' := ApplyTurn(s, w, x);
      && (forall m :: Has(s', m) && m != s.next ==> Has(s, m) && MessageOf(s', m) == MessageOf(s, m))
      && (Has(s', s.next) ==> x.SignatureSent? && x.stored)
  {
    hide ActsOf, RecordsAfter, UpdatesAfter, SignedAfter, WorkersAfter, NextPhase, Sound;
    assert s.workers[w].m in s.queue && s.queue[s.workers[w].m] == s.workers[w].body;
    hide WorkOk, TurnEnabled;
  }

  lemma TurnTrace(s: State, w: nat, x: Turn)
    requires w in s.workers && TurnEnabled(s.workers[w], x)
    ensures var s', work := ApplyTurn(s, w, x), s.workers[w];
      && (!Enters(AfterSending, x) ==> NoNewTrace(s.log, s'.log))
      && (x.SignatureSent? && x.stored ==> s'.log == s.log + [Forwarded(work.body.id, work.phase.signature)])
      && (x.ResultSent? && x.stored ==>
        s'.log == s.log + [Published(FinalizationOf(work.phase.row, work.phase.result))])
  {
    assert s.log + [] == s.log;
  }

  lemma QuietTurn(s: State, w: nat, x: Turn)
    requires Inv(s) && OnceOk(s) && w in s.workers && TurnEnabled(s.workers[w], x) && !Enters(AfterSending, x)
    ensures OnceOk(ApplyTurn(s, w, x))
  {
    var s' := ApplyTurn(s, w, x);
    assert WorkOk(s, s.workers[w]);
    TurnMessages(s, w, x);
    TurnTrace(s, w, x);
    TurnActsLess(s, w, x, AfterSending);
    CanActIsQueued(s', AfterSending);
    assert forall m :: m in s'.queue ==> Has(s', m);
    hide Inv, OnceOk, ApplyTurn, TurnEnabled, CanAct, NoNewTrace;
    OnceStays(s, s');
  }

  // ---- steps that publish ----

  /** A new signature, from a request `m` that had none. */
  lemma SignatureAdded(s: State, s': State, m: MsgId, sig: string)
    requires OnceOk(s) && m in s.queue && s.queue[m].Request?
    requires CanAct(s, m, AfterSending) && !CanAct(s', m, AfterSending)
    requires s'.log == s.log + [Forwarded(s.queue[m].id, sig)]
    requires forall n :: Has(s', n) && n != s.next ==> Has(s, n) && MessageOf(s', n) == MessageOf(s, n)
    requires forall n :: n != s.next && CanAct(s', n, AfterSending) ==>
                           CanAct(s, n, AfterSending) && s'.queue[n] == s.queue[n]
    requires s.next in s'.queue && s'.queue[s.next].Signature? && s'.queue[s.next].id == s.queue[m].id
    ensures OnceOk(s')
  {
    var id := s.queue[m].id;
    assert MessageOf(s', s.next) == s'.queue[s.next] && MessageOf(s, m) == s.queue[m];
    CanActIsQueued(s, AfterSending);
    CanActIsQueued(s', AfterSending);
    TraceAdded(s.log, Forwarded(id, sig));
    hide CanAct, ForwardedIn, DoneIn, Once;
    forall n | CanAct(s', n, AfterSending) && n != s.next && s'.queue[n].Request? ensures s'.queue[n].id != id {
      assert MessageOf(s, n) == s.queue[n];
    }
  }

  lemma TraceAdded(log: seq<Act>, act: Act)
    requires Once(log)
    ensures forall id :: ForwardedIn(log + [act], id) <==> ForwardedIn(log, id) || (act.Forwarded? && act.id == id)
    ensures forall id :: DoneIn(log + [act], id) <==> DoneIn(log, id) || (act.Published? && act.fin.id == id)
    ensures Once(log + [act]) <==>
            !(act.Forwarded? && ForwardedIn(log, act.id)) && !(act.Published? && DoneIn(log, act.fin.id))
  {
    forall id
      ensures ForwardedIn(log + [act], id) <==> ForwardedIn(log, id) || (act.Forwarded? && act.id == id)
      ensures DoneIn(log + [act], id) <==> DoneIn(log, id) || (act.Published? && act.fin.id == id)
    {
      SameTraces(log, act, id);
    }
    var log' := log + [act];
    assert log'[|log|] == act && forall j :: 0 <= j < |log| ==> log'[j] == log[j];
    if act.Forwarded? && ForwardedIn(log, act.id) {
      var j :| 0 <= j < |log| && log[j].Forwarded? && log[j].id == act.id;
      assert Repeats(log'[j], log'[|log|]);
    }
    if act.Published? && DoneIn(log, act.fin.id) {
      var j :| 0 <= j < |log| && log[j].Published? && log[j].fin.id == act.fin.id;
      assert Repeats(log'[j], log'[|log|]);
    }
  }

  /** A new finalization, from a signature `m` that had led to none. */
  lemma FinalizationAdded(s: State, s': State, m: MsgId, fin: Finalization)
    requires OnceOk(s) && s'.log == s.log + [Published(fin)]
    requires m in s.queue && s.queue[m].Signature? && s.queue[m].id == fin.id
    requires CanAct(s, m, AfterSending) && !CanAct(s', m, AfterSending)
    requires forall n :: Has(s', n) ==> Has(s, n) && MessageOf(s', n) == MessageOf(s, n)
    requires forall n :: CanAct(s', n, AfterSending) ==> CanAct(s, n, AfterSending) && s'.queue[n] == s.queue[n]
    ensures OnceOk(s')
  {
    assert MessageOf(s, m) == s.queue[m];
    CanActIsQueued(s, AfterSending);
    CanActIsQueued(s', AfterSending);
    TraceAdded(s.log, Published(fin));
    hide CanAct, ForwardedIn, DoneIn, Once;
    forall n | CanAct(s', n, AfterSending) && s'.queue[n].Signature? ensures s'.queue[n].id != fin.id {
      assert MessageOf(s, n) == s.queue[n];
    }
  }

  lemma SendingTurn(s: State, w: nat, x: Turn)
    requires Inv(s) && OnceOk(s) && w in s.workers && TurnEnabled(s.workers[w], x) && Enters(AfterSending, x)
    ensures OnceOk(ApplyTurn(s, w, x))
  {
    var s', work := ApplyTurn(s, w, x), s.workers[w];
    assert WorkOk(s, work) && work.m < s.next;
    assert x.SignatureSent? ==>
      s.next in s'.queue && s'.queue[s.next] == Signature(work.body.id, work.body.payload, work.phase.signature);
    assert x.ResultSent? ==> work.phase.row.tx == work.body.id;
    TurnMessages(s, w, x);
    TurnTrace(s, w, x);
    TurnActsLess(s, w, x, AfterSending);
    OwnMessage(s, w, x, AfterSending);
    CanActIsQueued(s', AfterSending);
    assert forall m :: m in s'.queue ==> Has(s', m);
    hide Inv, OnceOk, CanAct, MessageOf, ApplyTurn, WorkOk;
    if x.SignatureSent? {
      SignatureAdded(s, s', work.m, work.phase.signature);
    } else {
      FinalizationAdded(s, s', work.m, FinalizationOf(work.phase.row, work.phase.result));
    }
  }

  // ---- all steps ----

  lemma NotTraced(s: State, id: TxId)
    requires LogOk(s) && id !in s.started
    ensures !DoneIn(s.log, id) && !ForwardedIn(s.log, id)
  {
    forall j: nat | j < |s.log| && s.log[j].Published? ensures s.log[j].fin.id in s.started {
      assert ActOk(s, j);
    }
    forall j: nat | j < |s.log| && s.log[j].Forwarded? ensures s.log[j].id in s.started {
      assert ActOk(s, j);
    }
  }

  lemma BeginOnce(s: State, id: TxId, signable: Signable, metadata: map<string, string>)
    requires Inv(s) && OnceOk(s) && id !in s.started
    ensures OnceOk(ApplyBegin(s, id, signable, metadata))
  {
    hide WorkersOk, RowsOk, NothingLost;
    var s' := ApplyBegin(s, id, signable, metadata);
    assert forall m: MsgId :: Has(s, m) ==> m < s.next && MessageOf(s, m).id != id by {
      forall m: MsgId | Has(s, m) ensures m < s.next && MessageOf(s, m).id != id {
        assert Sound(s, MessageOf(s, m));
      }
    }
    NotTraced(s, id);
    hide QueueOk, LogOk, ForwardedIn, DoneIn, Once;
    BeginActsLess(s, id, signable, metadata, AfterSending);
    BeginMessages(s, id, signable, metadata);
    CanActIsQueued(s', AfterSending);
    hide CanAct, ApplyBegin;
  }

  lemma BeginMessages(s: State, id: TxId, signable: Signable, metadata: map<string, string>)
    ensures var s' := ApplyBegin(s, id, signable, metadata);
      && s'.log == s.log && s.next in s'.queue && s'.queue[s.next].Request? && s'.queue[s.next].id == id
      && (forall m :: m != s.next && Has(s', m) ==> Has(s, m) && MessageOf(s', m) == MessageOf(s, m))
  {
  }

  lemma OtherMessages(s: State, x: Step)
    requires Enabled(s, x) && !x.Begin? && !x.Proceed?
    ensures forall m :: Has(Apply(s, x), m) ==> Has(s, m) && MessageOf(Apply(s, x), m) == MessageOf(s, m)
  {
    hide Held;
  }

  lemma OnceKept(s: State, x: Step)
    requires Inv(s) && OnceOk(s) && Enabled(s, x) && !(x.Crash? && Harmful(s, x.w, AfterSending))
    ensures OnceOk(Apply(s, x))
  {
    hide Inv, OnceOk, ApplyTurn, TurnEnabled, ApplyBegin, Has, CanAct, MessageOf, Harmful;
    match x
    case Begin(id, signable, metadata) => BeginOnce(s, id, signable, metadata);
    case Proceed(w, turn) => if Enters(AfterSending, turn) { SendingTurn(s, w, turn); } else { QuietTurn(s, w, turn); }
    case _ =>
      OtherActsLess(s, x, AfterSending);
      OtherMessages(s, x);
      OnceStays(s, Apply(s, x));
  }

  lemma {:induction false} RunOnce(r: Run, i: nat)
    requires IsRun(r) && i < |r.states| && forall k :: 0 <= k < i ==> !HarmfulCrash(r, k, AfterSending)
    ensures OnceOk(r.states[i])
  {
    if i > 0 {
      hide Inv, Enabled, Apply, OnceOk, Harmful;
      RunInv(r, i - 1);
      RunOnce(r, i - 1);
      assert !HarmfulCrash(r, i - 1, AfterSending);
      OnceKept(r.states[i - 1], r.steps[i - 1]);
    }
  }

  /**
   * If no worker crashed between publishing and settling a message that can be delivered again, every
   * transaction is signed at most once and finalized at most once.
   */
  lemma FinalizedAtMostOnce(r: Run, i: nat)
    requires IsRun(r) && i < |r.states| && forall k :: 0 <= k < i ==> !HarmfulCrash(r, k, AfterSending)
    ensures Once(r.states[i].log) && OneEach(r.states[i])
  {
    hide IsRun, Once, OneEach;
    RunOnce(r, i);
  }

  // ---- a harmful crash ----

  /** A signer in the window has left its trace (for a submitter, the invariant says so). */
  ghost predicate LeftTrace(s: State, work: Work) {
    work.body.Request? && work.phase.Accepting? ==> ForwardedIn(s.log, work.body.id)
  }

  ghost predicate TracesOk(s: State) {
    forall w :: w in s.workers ==> LeftTrace(s, s.workers[w])
  }

  lemma ForwardedStays(log: seq<Act>, more: seq<Act>, id: TxId)
    requires ForwardedIn(log, id)
    ensures ForwardedIn(log + more, id)
  {
    var j :| 0 <= j < |log| && log[j].Forwarded? && log[j].id == id;
    assert (log + more)[j] == log[j];
  }

  lemma TurnTraces(s: State, w: nat, x: Turn, v: nat)
    requires w in s.workers && WorkOk(s, s.workers[w]) && TurnEnabled(s.workers[w], x)
             && v in ApplyTurn(s, w, x).workers
    requires v in s.workers && LeftTrace(s, s.workers[v])
    ensures LeftTrace(ApplyTurn(s, w, x), ApplyTurn(s, w, x).workers[v])
  {
    hide QueueAfter, SignedAfter, RecordsAfter, UpdatesAfter;
    var s', id, acts := ApplyTurn(s, w, x), s.workers[v].body.id, ActsOf(s.workers[w], x);
    assert s'.log == s.log + acts;
    if ForwardedIn(s.log, id) { ForwardedStays(s.log, acts, id); }
    if v == w && x.SignatureSent? && x.stored {
      assert s'.log[|s.log|] == acts[0];
    }
    hide ForwardedIn;
  }

  lemma TracesKept(s: State, x: Step)
    requires Inv(s) && TracesOk(s) && Enabled(s, x)
    ensures TracesOk(Apply(s, x))
  {
    hide Inv, WorkOk, TurnEnabled, ApplyTurn, LeftTrace;
    if x.Proceed? {
      forall v | v in ApplyTurn(s, x.w, x.turn).workers
        ensures LeftTrace(ApplyTurn(s, x.w, x.turn), ApplyTurn(s, x.w, x.turn).workers[v])
      {
        TurnWorkersAre(s, x.w, x.turn);
        InvHasWork(s, x.w);
        TurnTraces(s, x.w, x.turn, v);
      }
    } else {
      QuietTraces(s, x);
    }
  }

  lemma TurnWorkersAre(s: State, w: nat, x: Turn)
    requires w in s.workers && TurnEnabled(s.workers[w], x)
    ensures ApplyTurn(s, w, x).workers.Keys <= s.workers.Keys
  {
  }

  lemma QuietTraces(s: State, x: Step)
    requires TracesOk(s) && Enabled(s, x) && !x.Proceed?
    ensures TracesOk(Apply(s, x))
  {
    hide ForwardedIn, DoneIn, Held;
  }

  lemma {:induction false} RunTraces(r: Run, i: nat)
    requires IsRun(r) && i < |r.states|
    ensures TracesOk(r.states[i])
  {
    if i > 0 {
      hide Inv, Enabled, Apply, TracesOk;
      RunInv(r, i - 1);
      RunTraces(r, i - 1);
      TracesKept(r.states[i - 1], r.steps[i - 1]);
    }
  }

  lemma TwiceTraced(log: seq<Act>, act: Act)
    requires (act.Forwarded? && ForwardedIn(log, act.id)) || (act.Published? && DoneIn(log, act.fin.id))
    ensures !Once(log + [act])
  {
    var j :| 0 <= j < |log| && Repeats(log[j], act);
    var log' := log + [act];
    assert log'[j] == log[j] && log'[|log|] == act;
  }

  /** From a harmful crash on, a run can publish twice for one transaction. */
  lemma CrashRepeats(r: Run, w: nat) returns (q: Run)
    requires IsRun(r) && Harmful(Last(r), w, AfterSending)
    ensures Calm(Crashed(r, w), q) && !Once(Last(q).log)
  {
    var s := Last(r);
    var c, body := Crashed(r, w), s.workers[w].body;
    TraceLeft(r, w);
    hide IsRun, Calm, Once, JustDelivered, ForwardedIn, DoneIn;
    q := Redelivered(r, w);
    if body.Request? {
      var made := Made(s.workers[w].m, "signature");
      q := SignsAgain(c, q, w, body);
      ForwardedStays(s.log, [made], body.id);
      TwiceTraced(s.log + [made], Forwarded(body.id, "signature"));
    } else {
      var act, act';
      q, act, act' := SubmitsAgain(c, q, w, body);
      DoneStays(s.log, [act], body.id);
      TwiceTraced(s.log + [act], act');
    }
  }

  lemma TraceLeft(r: Run, w: nat)
    requires IsRun(r) && Harmful(Last(r), w, AfterSending)
    ensures var work := Last(r).workers[w];
      if work.body.Request? then ForwardedIn(Last(r).log, work.body.id) else DoneIn(Last(r).log, work.body.id)
  {
    var s := Last(r);
    RunInv(r, |r.states| - 1);
    RunTraces(r, |r.states| - 1);
    InvHasWork(s, w);
    hide IsRun, Inv, ForwardedIn;
    assert LeftTrace(s, s.workers[w]);
    if s.workers[w].phase.Updating? {
      FinalizedIsDone(s.log, s.workers[w].phase.row, s.workers[w].phase.result);
    }
  }

  /**
   * Exactly those crashes repeat what is stored: in a run without one so far, a crash of worker `w` can
   * lead to a second stored signature or finalization of some transaction, without a further such crash,
   * if and only if `w` has published, has not settled, and its message can be delivered again.
   */
  lemma CrashHarmsIff(r: Run, w: nat)
    requires IsRun(r) && w in Last(r).workers && forall k :: 0 <= k < |r.steps| ==> !HarmfulCrash(r, k, AfterSending)
    ensures Harmful(Last(r), w, AfterSending) <==>
            exists q :: GoesOn(Crashed(r, w), q, AfterSending) && !Once(Last(q).log)
  {
    if Harmful(Last(r), w, AfterSending) {
      var q := CrashRepeats(r, w);
      CalmGoesOn(Crashed(r, w), q, AfterSending);
    } else {
      forall q | GoesOn(Crashed(r, w), q, AfterSending) ensures Once(Last(q).log) {
        HarmlessAfter(r, w, q, AfterSending);
        hide HarmfulCrash, Once;
        FinalizedAtMostOnce(q, |q.states| - 1);
      }
    }
  }

  /** A run with a harmful crash: a request is signed, its signer crashes, and it is signed again. */
  lemma CrashSignsTwice() returns (q: Run)
    ensures IsRun(q) && !Once(Last(q).log)
  {
    var start, signable := Run([START], []), Signable("address", "0x1", "call");
    assert Calm(start, start) && Last(start) == START;
    q := GoesOneFurther(start, start, Begin("id", signable, map[]));
    assert !Held(Last(q), 0);
    var body := Last(q).queue[0];
    q := GoesOneFurther(start, q, Deliver(0, 0));
    assert AttemptsOf(Last(q), 0) == 1;
    q := SignsAgain(start, q, 0, body);
    q := CrashRepeats(q, 0);
  }

  // ---- second deliveries ----

  /** No message was handed out twice. */
  ghost predicate DeliveredAtMostOnce(s: State) {
    forall m :: AttemptsOf(s, m) <= 1
  }

  ghost predicate AttemptsOk(s: State) {
    && (forall m :: m in s.attempts ==> m < s.next)
    && (forall w :: w in s.workers ==> AttemptsOf(s, s.workers[w].m) >= 1)
  }

  /** A message that was handed out and is not settled is still with its worker. */
  ghost predicate Attended(s: State) {
    && AttemptsOk(s) && DeliveredAtMostOnce(s)
    && forall m :: m in s.queue && AttemptsOf(s, m) >= 1 ==> Held(s, m)
  }

  lemma AttendedByTurn(s: State, w: nat, x: Turn)
    requires Attended(s) && w in s.workers && TurnEnabled(s.workers[w], x)
    ensures Attended(ApplyTurn(s, w, x))
  {
    hide ActsOf, RecordsAfter, UpdatesAfter, SignedAfter, TurnEnabled, NextPhase;
    var s' := ApplyTurn(s, w, x);
    assert forall m :: AttemptsOf(s', m) == AttemptsOf(s, m);
    forall m | m in s'.queue && AttemptsOf(s', m) >= 1 ensures Held(s', m) {
      assert m in s.queue && Held(s, m);
      var v :| v in s.workers && s.workers[v].m == m;
      assert v in s'.workers && s'.workers[v].m == m;
    }
  }

  lemma AttendedKept(s: State, x: Step)
    requires Inv(s) && Attended(s) && Enabled(s, x) && !x.Crash?
    ensures Attended(Apply(s, x))
  {
    hide ApplyTurn, TurnEnabled, WorkersOk, LogOk, RowsOk, NothingLost, Sound;
    if x.Proceed? {
      AttendedByTurn(s, x.w, x.turn);
    } else if x.Deliver? {
      AttendedByDelivery(s, x.w, x.m);
    } else {
      var s' := Apply(s, x);
      assert forall m :: AttemptsOf(s', m) == AttemptsOf(s, m);
      forall m | m in s'.queue && AttemptsOf(s', m) >= 1 ensures Held(s', m) {
        assert Held(s, m);
      }
    }
  }

  lemma AttendedByDelivery(s: State, w: nat, m: MsgId)
    requires Inv(s) && Attended(s) && Enabled(s, Deliver(w, m))
    ensures Attended(Apply(s, Deliver(w, m)))
  {
    hide WorkersOk, LogOk, RowsOk, NothingLost, Sound;
    var s' := Apply(s, Deliver(w, m));
    assert AttemptsOf(s, m) == 0;
    forall n ensures AttemptsOf(s', n) == if n == m then 1 else AttemptsOf(s, n) {
    }
    forall n | n in s'.queue && AttemptsOf(s', n) >= 1 ensures Held(s', n) {
      var v :| if n == m then v == w else v in s.workers && s.workers[v].m == n;
      assert v in s'.workers && s'.workers[v].m == n;
    }
  }

  lemma {:induction false} RunAttended(r: Run, i: nat)
    requires IsRun(r) && i < |r.states| && forall k :: 0 <= k < i ==> !r.steps[k].Crash?
    ensures Attended(r.states[i])
  {
    if i > 0 {
      hide Inv, Enabled, Apply, Attended;
      RunInv(r, i - 1);
      RunAttended(r, i - 1);
      AttendedKept(r.states[i - 1], r.steps[i - 1]);
    }
  }

  /** Without a crash nothing is delivered twice, so every transaction is finalized at most once. */
  lemma NoCrashFinalizesOnce(r: Run, i: nat)
    requires IsRun(r) && i < |r.states| && forall k :: 0 <= k < i ==> !r.steps[k].Crash?
    ensures DeliveredAtMostOnce(r.states[i]) && Once(r.states[i].log) && OneEach(r.states[i])
  {
    hide IsRun, Once, OneEach;
    RunAttended(r, i);
    FinalizedAtMostOnce(r, i);
  }
}
