/**
 * How often one message makes the manager sign, and how often it is submitted to the chain: once,
 * unless a worker crashes after that and before its message is settled. Both windows are wider than
 * the one in which something stored is repeated.
 */
module OfflineRepeats {
  import opened OfflineModel
  import opened OfflineProofs
  import opened OfflineWindows

  /** What the window is about was done for message `m`. */
  predicate IsFor(act: Act, m: MsgId, win: Window) {
    match win
    case AfterSigning => act.Made? && act.m == m
    case AfterChain => act.Submitted? && act.m == m
    case AfterSending => false
  }

  ghost predicate DoneFor(log: seq<Act>, m: MsgId, win: Window) {
    exists j :: 0 <= j < |log| && IsFor(log[j], m, win)
  }

  /** No message made the manager sign twice, or was submitted twice. */
  ghost predicate OncePerMessage(log: seq<Act>, win: Window) {
    forall i, j, m: MsgId :: 0 <= i < j < |log| ==> !(IsFor(log[i], m, win) && IsFor(log[j], m, win))
  }

  ghost predicate LeftMark(s: State, work: Work, win: Window) {
    In(win, work) ==> DoneFor(s.log, work.m, win)
  }

  ghost predicate MarksOk(s: State, win: Window) {
    && (forall m: MsgId :: DoneFor(s.log, m, win) ==> m < s.next)
    && (forall w :: w in s.workers ==> LeftMark(s, s.workers[w], win))
  }

  ghost predicate OnceOk(s: State, win: Window) {
    && OncePerMessage(s.log, win)
    && forall m :: CanAct(s, m, win) ==> !DoneFor(s.log, m, win)
  }

  // ---- the log ----

  lemma Added(log: seq<Act>, act: Act, win: Window)
    ensures forall m :: DoneFor(log + [act], m, win) <==> DoneFor(log, m, win) || IsFor(act, m, win)
    ensures OncePerMessage(log, win) && (forall m :: IsFor(act, m, win) ==> !DoneFor(log, m, win)) ==>
              OncePerMessage(log + [act], win)
  {
    var log' := log + [act];
    assert log'[|log|] == act && forall j :: 0 <= j < |log| ==> log'[j] == log[j];
    forall m | DoneFor(log, m, win) ensures DoneFor(log', m, win) {
      var j :| 0 <= j < |log| && IsFor(log[j], m, win);
      assert IsFor(log'[j], m, win);
    }
  }

  lemma TwiceFor(log: seq<Act>, act: Act, more: seq<Act>, m: MsgId, win: Window)
    requires DoneFor(log, m, win) && IsFor(act, m, win)
    ensures !OncePerMessage(log + [act] + more, win)
  {
    var log' := log + [act] + more;
    var j :| 0 <= j < |log| && IsFor(log[j], m, win);
    assert log'[j] == log[j] && log'[|log|] == act;
  }

  /** What a turn adds to the log: the act of the window exactly when it enters it. */
  lemma TurnAdds(s: State, w: nat, x: Turn, win: Window)
    requires w in s.workers && TurnEnabled(s.workers[w], x) && !win.AfterSending?
    ensures var log, log' := s.log, ApplyTurn(s, w, x).log;
      if Enters(win, x) then
        |log'| == |log| + 1 && log' == log + [log'[|log|]] && IsFor(log'[|log|], s.workers[w].m, win)
      else forall m :: DoneFor(log', m, win) <==> DoneFor(log, m, win)
    ensures !Enters(win, x) && OncePerMessage(s.log, win) ==> OncePerMessage(ApplyTurn(s, w, x).log, win)
  {
    var log, acts := s.log, ActsOf(s.workers[w], x);
    hide QueueAfter, WorkersAfter, RecordsAfter, UpdatesAfter, SignedAfter;
    if acts == [] {
      assert log + acts == log;
    } else {
      assert acts == [acts[0]];
      Added(log, acts[0], win);
      hide DoneFor, OncePerMessage;
    }
  }

  // ---- marks ----

  lemma DoneGrows(s: State, w: nat, x: Turn, m: MsgId, win: Window)
    requires w in s.workers && TurnEnabled(s.workers[w], x) && !win.AfterSending?
    ensures DoneFor(ApplyTurn(s, w, x).log, m, win) <==>
            DoneFor(s.log, m, win) || (Enters(win, x) && m == s.workers[w].m)
  {
    TurnAdds(s, w, x, win);
    hide ApplyTurn, TurnEnabled, DoneFor, OncePerMessage;
    if Enters(win, x) {
      Added(s.log, ApplyTurn(s, w, x).log[|s.log|], win);
    }
  }

  /** A listener is in the window only if it was there or enters it now. */
  lemma TurnEnters(s: State, w: nat, x: Turn, win: Window)
    requires w in s.workers && WorkOk(s, s.workers[w]) && TurnEnabled(s.workers[w], x) && !win.AfterSending?
    requires w in ApplyTurn(s, w, x).workers
    ensures var work' := ApplyTurn(s, w, x).workers[w];
      work'.m == s.workers[w].m && (In(win, work') ==> In(win, s.workers[w]) || Enters(win, x))
  {
    hide QueueAfter, ActsOf, RecordsAfter, UpdatesAfter, SignedAfter;
  }

  lemma OthersStand(s: State, w: nat, x: Turn, v: nat)
    requires w in s.workers && TurnEnabled(s.workers[w], x) && v != w
    ensures v in ApplyTurn(s, w, x).workers <==> v in s.workers
    ensures v in s.workers ==> ApplyTurn(s, w, x).workers[v] == s.workers[v]
    ensures s.next <= ApplyTurn(s, w, x).next
  {
    hide TurnEnabled, NextPhase, QueueAfter, ActsOf, RecordsAfter, UpdatesAfter, SignedAfter;
  }

  lemma TurnMarks(s: State, w: nat, x: Turn, win: Window)
    requires MarksOk(s, win) && QueueOk(s) && w in s.workers && WorkOk(s, s.workers[w])
    requires TurnEnabled(s.workers[w], x) && !win.AfterSending?
    ensures MarksOk(ApplyTurn(s, w, x), win)
  {
    assert s.workers[w].m < s.next;
    hide ApplyTurn, TurnEnabled, DoneFor, In, Enters, WorkOk, QueueOk;
    var s' := ApplyTurn(s, w, x);
    OthersStand(s, w, x, w + 1);
    forall m: MsgId | DoneFor(s'.log, m, win) ensures m < s'.next {
      DoneGrows(s, w, x, m, win);
    }
    forall v | v in s'.workers ensures LeftMark(s', s'.workers[v], win) {
      if v == w { TurnEnters(s, w, x, win); } else { OthersStand(s, w, x, v); }
      assert v in s.workers && LeftMark(s, s.workers[v], win) && s'.workers[v].m == s.workers[v].m;
      DoneGrows(s, w, x, s.workers[v].m, win);
    }
  }

  lemma QuietMarks(s: State, x: Step, win: Window)
    requires MarksOk(s, win) && Enabled(s, x) && !x.Proceed?
    ensures MarksOk(Apply(s, x), win)
  {
    hide DoneFor, Held;
  }

  lemma MarksKept(s: State, x: Step, win: Window)
    requires Inv(s) && MarksOk(s, win) && Enabled(s, x) && !win.AfterSending?
    ensures MarksOk(Apply(s, x), win)
  {
    if x.Proceed? {
      InvHasWork(s, x.w);
      hide WorkersOk, LogOk, RowsOk, NothingLost, QueueOk, MarksOk, WorkOk, TurnEnabled, ApplyTurn;
      TurnMarks(s, x.w, x.turn, win);
    } else {
      hide Inv, MarksOk;
      QuietMarks(s, x, win);
    }
  }

  lemma {:induction false} RunMarks(r: Run, i: nat, win: Window)
    requires IsRun(r) && i < |r.states| && !win.AfterSending?
    ensures MarksOk(r.states[i], win)
  {
    if i > 0 {
      hide Inv, Enabled, Apply, MarksOk;
      RunMarks(r, i - 1, win);
      RunInv(r, i - 1);
      MarksKept(r.states[i - 1], r.steps[i - 1], win);
    }
  }

  // ---- once ----

  lemma TurnOnce(s: State, w: nat, x: Turn, win: Window)
    requires Inv(s) && MarksOk(s, win) && OnceOk(s, win) && w in s.workers && TurnEnabled(s.workers[w], x)
    requires !win.AfterSending?
    ensures OnceOk(ApplyTurn(s, w, x), win)
  {
    var s', m := ApplyTurn(s, w, x), s.workers[w].m;
    InvHasWork(s, w);
    assert m < s.next && !DoneFor(s.log, s.next, win);
    TurnActsLess(s, w, x, win);
    OwnMessage(s, w, x, win);
    TurnAdds(s, w, x, win);
    hide Inv, ApplyTurn, TurnEnabled, WorkOk, CanAct, DoneFor, OncePerMessage, Enters, MarksOk;
    if Enters(win, x) {
      assert forall n: MsgId :: IsFor(s'.log[|s.log|], n, win) ==> n == m;
      Added(s.log, s'.log[|s.log|], win);
    }
    forall n | CanAct(s', n, win) ensures !DoneFor(s'.log, n, win) {
      DoneGrows(s, w, x, n, win);
    }
  }

  lemma OnceKept(s: State, x: Step, win: Window)
    requires Inv(s) && MarksOk(s, win) && OnceOk(s, win) && Enabled(s, x) && !win.AfterSending?
    requires !(x.Crash? && Harmful(s, x.w, win))
    ensures OnceOk(Apply(s, x), win)
  {
    if x.Proceed? {
      hide Inv, MarksOk, OnceOk, TurnEnabled, ApplyTurn;
      TurnOnce(s, x.w, x.turn, win);
    } else if x.Begin? {
      BeginActsLess(s, x.id, x.signable, x.metadata, win);
      hide Inv, CanAct, DoneFor, OncePerMessage;
    } else {
      OtherActsLess(s, x, win);
      hide Inv, CanAct, DoneFor, OncePerMessage, Apply, Enabled;
    }
  }

  lemma {:induction false} RunOnce(r: Run, i: nat, win: Window)
    requires IsRun(r) && i < |r.states| && !win.AfterSending?
    requires forall k :: 0 <= k < i ==> !HarmfulCrash(r, k, win)
    ensures OnceOk(r.states[i], win)
  {
    if i > 0 {
      hide Inv, Enabled, Apply, OnceOk, MarksOk, Harmful;
      RunInv(r, i - 1);
      RunMarks(r, i - 1, win);
      RunOnce(r, i - 1, win);
      assert !HarmfulCrash(r, i - 1, win);
      OnceKept(r.states[i - 1], r.steps[i - 1], win);
    }
  }

  // ---- exactly when ----

  /** From a crash in the window on, a run can do the same once more for the message. */
  lemma CrashRepeats(r: Run, w: nat, win: Window) returns (q: Run)
    requires IsRun(r) && Harmful(Last(r), w, win) && !win.AfterSending?
    ensures Calm(Crashed(r, w), q) && !OncePerMessage(Last(q).log, win)
  {
    var s := Last(r);
    var c, body, m := Crashed(r, w), s.workers[w].body, s.workers[w].m;
    RunMarks(r, |r.states| - 1, win);
    assert LeftMark(s, s.workers[w], win);
    hide IsRun, Calm, OncePerMessage, JustDelivered, MarksOk, DoneFor;
    q := Redelivered(r, w);
    if win.AfterSigning? {
      q := SignsAgain(c, q, w, body);
      TwiceFor(s.log, Made(m, "signature"), [Forwarded(body.id, "signature")], m, win);
    } else {
      var act, act';
      q, act, act' := SubmitsAgain(c, q, w, body);
      TwiceFor(s.log, act, [act'], m, win);
    }
  }

  /**
   * In a run without a harmful crash so far, a crash of worker `w` can make the manager sign a second
   * time for one request, or a signature be submitted to the chain a second time, without a further such
   * crash, if and only if `w` is past its first time, has not settled, and its message can be delivered
   * again.
   */
  lemma CrashRepeatsIff(r: Run, w: nat, win: Window)
    requires IsRun(r) && w in Last(r).workers && !win.AfterSending?
    requires forall k :: 0 <= k < |r.steps| ==> !HarmfulCrash(r, k, win)
    ensures Harmful(Last(r), w, win) <==> exists q :: GoesOn(Crashed(r, w), q, win) && !OncePerMessage(Last(q).log, win)
  {
    if Harmful(Last(r), w, win) {
      var q := CrashRepeats(r, w, win);
      CalmGoesOn(Crashed(r, w), q, win);
    } else {
      forall q | GoesOn(Crashed(r, w), q, win) ensures OncePerMessage(Last(q).log, win) {
        HarmlessAfter(r, w, q, win);
        hide HarmfulCrash, OncePerMessage;
        RunOnce(q, |q.states| - 1, win);
      }
    }
  }

  /** Without a harmful crash, every request is signed once and every signature submitted once, at most. */
  lemma AtMostOncePerMessage(r: Run, i: nat, win: Window)
    requires IsRun(r) && i < |r.states| && !win.AfterSending?
    requires forall k :: 0 <= k < i ==> !HarmfulCrash(r, k, win)
    ensures OncePerMessage(r.states[i].log, win)
  {
    hide IsRun, OncePerMessage;
    RunOnce(r, i, win);
  }
}
