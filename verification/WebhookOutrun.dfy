/**
 * Whether a subscription can turn Done before an event that has read it has notified it. It can when
 * the handler of another, terminal event has only its clean-up left to do; and by clean-up steps alone,
 * it can in no other case.
 */
module WebhookOutrun {
  import opened WebhookState
  import opened WebhookSteps
  import opened WebhookDelivery
  import opened WebhookFanout
  import opened WebhookSignups
  import opened WebhookTransactions
  import opened WebhookHandshakes
  import opened WebhookNonces
  import opened WebhookEndings
  import opened WebhookTheorems

  /** The event has read the subscription, and its notification is not stored. */
  predicate Owes(job: Job, i: Id) {
    i in job.affected && (i in job.creations ==> !job.creations[i].Stored?)
  }

  /** The handler of `e` is on its way to mark `i`: about to unsubscribe, to look for subscriptions, or to mark it. */
  predicate CanMark(s: State, e: Id, i: Id) {
    && e in s.jobs
    && var job := s.jobs[e];
       || (job.phase.Processed? && Unsubscribes(s, job) && i in Matched(s.subs, job.tx, s.now))
       || (job.phase.FindingDone? && i in Matched(s.subs, job.tx, s.now))
       || (job.phase.MarkingDone? && i in job.phase.ids)
  }

  /** The steps of handlers after their events are processed. */
  predicate CleansUp(x: Step) {
    x.Handle? && (x.handling.Finish? || x.handling.FindDone? || x.handling.MarkDone?)
  }

  ghost function Last(r: Run): State
    requires IsRun(r)
  {
    r.states[|r.states| - 1]
  }

  /** `q` goes on from `r` with clean-up steps only. */
  ghost predicate Cleans(r: Run, q: Run) {
    && IsRun(q) && r.states <= q.states && r.steps <= q.steps
    && forall k :: |r.steps| <= k < |q.steps| ==> CleansUp(q.steps[k])
  }

  lemma CleansFurther(r: Run, q: Run, x: Step) returns (q': Run)
    requires Cleans(r, q) && Enabled(Last(q), x) && CleansUp(x)
    ensures Cleans(r, q') && Last(q') == Apply(Last(q), x)
  {
    q' := Run(q.states + [Apply(Last(q), x)], q.steps + [x]);
    hide Enabled, Apply, CleansUp, Init;
    assert forall k :: |r.steps| <= k < |q'.steps| ==> CleansUp(q'.steps[k]);
  }

  // ---- what clean-up does ----

  ghost predicate IsDone(s: State, i: Id) {
    i in s.subs && s.subs[i].status == Done
  }

  /** Clean-up stores no notification, so whoever owes one goes on owing it. */
  lemma CleanUpStores(s: State, x: Step)
    requires Enabled(s, x) && CleansUp(x)
    ensures var s' := Apply(s, x); s'.notifs == s.notifs && s'.now == s.now && s'.events == s.events
    ensures var s' := Apply(s, x);
      s'.jobs.Keys == s.jobs.Keys
      && forall e, i :: e in s.jobs && Owes(s.jobs[e], i) ==> Owes(s'.jobs[e], i)
  {
  }

  lemma OwingIsUnnotified(s: State, e: Id, i: Id)
    requires FanoutOk(s) && e in s.jobs && Owes(s.jobs[e], i)
    ensures !Notified(s, e, i)
  {
    forall n | n in s.notifs ensures !(s.notifs[n].event == e && s.notifs[n].sub == i) {
      assert NotifOk(s, n);
    }
  }

  // ---- from the window, it does ----

  lemma Finishes(r: Run, e: Id, i: Id) returns (q: Run)
    requires IsRun(r) && CanMark(Last(r), e, i) && e in Last(r).events && Last(r).jobs[e].phase.Processed?
    ensures Cleans(r, q) && CanMark(Last(q), e, i) && Last(q).jobs[e].phase.FindingDone? && e in Last(q).events
  {
    assert Cleans(r, r);
    hide Cleans, IsRun;
    q := CleansFurther(r, r, Handle(e, Finish));
  }

  lemma Finds(r: Run, q: Run, e: Id, i: Id) returns (q': Run)
    requires Cleans(r, q) && CanMark(Last(q), e, i) && e in Last(q).events && Last(q).jobs[e].phase.FindingDone?
    ensures Cleans(r, q') && CanMark(Last(q'), e, i) && Last(q').jobs[e].phase.MarkingDone? && e in Last(q').events
  {
    hide Cleans, IsRun;
    q' := CleansFurther(r, q, Handle(e, FindDone));
  }

  lemma Turns(r: Run, q: Run, e: Id, i: Id) returns (q': Run)
    requires Cleans(r, q) && CanMark(Last(q), e, i) && e in Last(q).events && Last(q).jobs[e].phase.MarkingDone?
    ensures Cleans(r, q') && IsDone(Last(q'), i)
  {
    assert i in Last(q).subs by {
      hide DeliveryOk, SignupsOk, ScopesOk, StoreOk, StatusesOk, HandshakesOk, NoncesOk, DoneOk, OrphansOk;
      RunInv(q, |q.states| - 1);
      assert JobOk(Last(q), e, Last(q).jobs[e]);
      assert Subscribed(Last(q), Last(q).jobs[e].tx, i);
    }
    hide Cleans, IsRun;
    q' := CleansFurther(r, q, Handle(e, MarkDone(i)));
  }

  lemma EventOfJob(r: Run, e: Id)
    requires IsRun(r) && e in Last(r).jobs
    ensures e in Last(r).events
  {
    hide DeliveryOk, SignupsOk, ScopesOk, StoreOk, StatusesOk, HandshakesOk, NoncesOk, DoneOk, OrphansOk;
    RunInv(r, |r.states| - 1);
  }

  /** The handler finishes its clean-up and the subscription turns Done. */
  lemma Outruns(r: Run, e: Id, i: Id) returns (q: Run)
    requires IsRun(r) && CanMark(Last(r), e, i)
    ensures Cleans(r, q) && IsDone(Last(q), i)
  {
    EventOfJob(r, e);
    assert Cleans(r, r);
    q := r;
    hide Cleans, IsRun, IsDone;
    if Last(q).jobs[e].phase.Processed? { q := Finishes(r, e, i); }
    if Last(q).jobs[e].phase.FindingDone? { q := Finds(r, q, e, i); }
    q := Turns(r, q, e, i);
  }

  // ---- from anywhere else, it does not ----

  ghost predicate OutOfReach(s: State, i: Id) {
    !IsDone(s, i) && forall e :: !CanMark(s, e, i)
  }

  lemma StaysOutOfReach(s: State, x: Step, i: Id)
    requires OutOfReach(s, i) && Enabled(s, x) && CleansUp(x)
    ensures OutOfReach(Apply(s, x), i)
  {
    var s', e := Apply(s, x), x.e;
    assert !CanMark(s, e, i);
    forall e' ensures !CanMark(s', e', i) {
      assert !CanMark(s, e', i);
    }
  }

  lemma {:induction false} RunStaysOut(r: Run, q: Run, k: nat, i: Id)
    requires IsRun(r) && Cleans(r, q) && OutOfReach(Last(r), i) && |r.steps| <= k < |q.states|
    ensures OutOfReach(q.states[k], i)
  {
    hide Enabled, Apply, Init, OutOfReach, CleansUp;
    if k > |r.steps| {
      RunStaysOut(r, q, k - 1, i);
      StaysOutOfReach(q.states[k - 1], q.steps[k - 1], i);
    }
  }

  lemma {:induction false} RunOwes(r: Run, q: Run, k: nat, e: Id, i: Id)
    requires IsRun(r) && Cleans(r, q) && |r.steps| <= k < |q.states| && e in Last(r).jobs && Owes(Last(r).jobs[e], i)
    ensures e in q.states[k].jobs && Owes(q.states[k].jobs[e], i)
  {
    hide Enabled, Apply, Init, Owes, CleansUp;
    if k > |r.steps| {
      RunOwes(r, q, k - 1, e, i);
      CleanUpStores(q.states[k - 1], q.steps[k - 1]);
    }
  }

  lemma StillUnnotified(r: Run, q: Run, e: Id, i: Id)
    requires IsRun(r) && Cleans(r, q) && e in Last(r).jobs && Owes(Last(r).jobs[e], i)
    ensures !Notified(Last(q), e, i)
  {
    hide Enabled, Apply, Init, CleansUp, Owes, Notified, DeliveryOk, FanoutOk, SignupsOk, ScopesOk, StoreOk, StatusesOk,
      HandshakesOk, NoncesOk, DoneOk, OrphansOk;
    RunOwes(r, q, |q.states| - 1, e, i);
    RunInv(q, |q.states| - 1);
    OwingIsUnnotified(Last(q), e, i);
  }

  /**
   * At any point of any run, for an event that has read a subscription and not stored its notification:
   * clean-up steps alone can turn the subscription Done before the event notifies it if and only if some
   * handler is on its way to mark it.
   */
  lemma OutrunIff(r: Run, e: Id, i: Id)
    requires IsRun(r) && e in Last(r).jobs && Owes(Last(r).jobs[e], i) && !IsDone(Last(r), i)
    ensures (exists e' :: CanMark(Last(r), e', i)) <==>
            exists q :: Cleans(r, q) && IsDone(Last(q), i) && !Notified(Last(q), e, i)
  {
    if e' :| CanMark(Last(r), e', i) {
      var q := Outruns(r, e', i);
      StillUnnotified(r, q, e, i);
    } else {
      hide Owes, CanMark, IsRun;
      forall q | Cleans(r, q) ensures !IsDone(Last(q), i) {
        assert IsRun(q) && |r.states| == |r.steps| + 1 by { RunShape(r, q); }
        RunStaysOut(r, q, |q.states| - 1, i);
      }
    }
  }

  lemma RunShape(r: Run, q: Run)
    requires IsRun(r) && Cleans(r, q)
    ensures IsRun(q) && |r.states| == |r.steps| + 1 && |q.states| == |q.steps| + 1
  {
    hide Enabled, Apply, Init;
  }
}
