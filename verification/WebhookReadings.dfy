/**
 * The nonces that two events read, in every run: they differ by the bumps that succeeded in between.
 */
module WebhookReadings {
  import opened Payloads
  import opened WebhookState
  import opened WebhookSteps
  import opened WebhookDelivery
  import opened WebhookFanout
  import opened WebhookSignups
  import opened WebhookTransactions
  import opened WebhookHandshakes
  import opened WebhookNonces
  import opened WebhookEndings
  import opened WebhookTheorems

  /** The step increments the nonce of subscription `i`. */
  ghost predicate Bumps(s: State, x: Step, i: Id) {
    x.Handle? && x.handling.Bump? && x.e in s.jobs && i in s.jobs[x.e].affected
  }

  /** How many of the steps from `k` up to `j` increment the nonce of `i`. */
  ghost function BumpsBetween(r: Run, k: nat, j: nat, i: Id): nat
    requires k <= j <= |r.steps| && j <= |r.states|
  {
    if k == j then 0 else BumpsBetween(r, k, j - 1, i) + if Bumps(r.states[j - 1], r.steps[j - 1], i) then 1 else 0
  }

  lemma {:induction false} NoBumpsIff(r: Run, k: nat, j: nat, i: Id)
    requires k <= j <= |r.steps| && j <= |r.states|
    ensures BumpsBetween(r, k, j, i) == 0 <==> forall h :: k <= h < j ==> !Bumps(r.states[h], r.steps[h], i)
  {
    if k < j {
      NoBumpsIff(r, k, j - 1, i);
    }
  }

  // ---- the counter of a subscription past its start ----

  lemma SigningCounts(s: State, g: Id, x: Signing, i: Id)
    requires SignupsOk(s) && SigningEnabled(s, g, x) && Started(s, i)
    requires s.signups[g].phase.SettingNonce? ==> s.signups[g].initial
    ensures var s' := ApplySigning(s, g, x); Started(s', i) && s'.subs[i].nextNonce == s.subs[i].nextNonce
  {
    assert SignupOk(s, g, s.signups[g]);
  }

  lemma HandlingCounts(s: State, e: Id, x: Handling, i: Id)
    requires HandlingEnabled(s, e, x) && Started(s, i)
    ensures var s' := ApplyHandling(s, e, x);
      Started(s', i) && s'.subs[i].nextNonce == s.subs[i].nextNonce + if Bumps(s, Handle(e, x), i) then 1 else 0
  {
    hide JobAfter, AllScheduled;
  }

  lemma StepCounts(s: State, x: Step, i: Id)
    requires SignupsOk(s) && ScopesOk(s) && Enabled(s, x) && Started(s, i)
    ensures var s' := Apply(s, x);
      Started(s', i) && s'.subs[i].nextNonce == s.subs[i].nextNonce + if Bumps(s, x, i) then 1 else 0
  {
    assert x.Sign? ==> ScopeOk(s, s.signups[x.g]);
    hide SignupsOk, ScopesOk, ApplyHandling, HandlingEnabled, ApplySigning, EffectOf, PayloadOf, MoveEnabled;
    if x.Sign? {
      SigningCounts(s, x.g, x.signing, i);
    } else if x.Handle? {
      HandlingCounts(s, x.e, x.handling, i);
    } else {
      OtherCounts(s, x, i);
    }
  }

  lemma OtherCounts(s: State, x: Step, i: Id)
    requires Enabled(s, x) && Started(s, i) && !x.Sign? && !x.Handle?
    ensures Started(Apply(s, x), i) && Apply(s, x).subs[i].nextNonce == s.subs[i].nextNonce
  {
    hide EffectOf, PayloadOf, MoveEnabled;
  }

  lemma {:induction false} RunCounts(r: Run, k: nat, j: nat, i: Id)
    requires IsRun(r) && k <= j < |r.states| && Started(r.states[k], i)
    ensures Started(r.states[j], i)
    ensures r.states[j].subs[i].nextNonce == r.states[k].subs[i].nextNonce + BumpsBetween(r, k, j, i)
  {
    hide Enabled, Apply, Bumps, Started, DeliveryOk, FanoutOk, SignupsOk, ScopesOk, StoreOk, StatusesOk, HandshakesOk,
      NoncesOk, DoneOk, OrphansOk;
    if k < j {
      RunCounts(r, k, j - 1, i);
      RunInv(r, j - 1);
      StepCounts(r.states[j - 1], r.steps[j - 1], i);
    }
  }

  // ---- what an event read stays what it read ----

  ghost predicate Shrinks(a: Job, b: Job) {
    !b.phase.Fetching? && forall i :: i in b.affected ==> i in a.affected && a.affected[i] == b.affected[i]
  }

  lemma JobShrinks(s: State, e: Id, x: Handling)
    requires HandlingEnabled(s, e, x) && JobOk(s, e, s.jobs[e]) && !s.jobs[e].phase.Fetching?
    ensures Shrinks(s.jobs[e], JobAfter(s, e, x))
  {
  }

  lemma ReadingShrinks(s: State, x: Step, e: Id)
    requires FanoutOk(s) && Enabled(s, x) && e in s.jobs && !s.jobs[e].phase.Fetching? && s.currentEvent + 1 !in s.jobs
    ensures e in Apply(s, x).jobs && Shrinks(s.jobs[e], Apply(s, x).jobs[e])
  {
    assert JobOk(s, e, s.jobs[e]);
    hide FanoutOk, JobOk, HandlingEnabled, JobAfter, ApplyHandling, ApplySigning, Perform, Ring, EffectOf, PayloadOf;
    if x.Handle? {
      HandlingBooks(s, x.e, x.handling);
      if x.e == e { JobShrinks(s, e, x.handling); }
    } else {
      JobsStay(s, x, e);
    }
  }

  lemma JobsStay(s: State, x: Step, e: Id)
    requires Enabled(s, x) && !x.Handle? && e in s.jobs && s.currentEvent + 1 !in s.jobs
    ensures e in Apply(s, x).jobs && Apply(s, x).jobs[e] == s.jobs[e]
  {
    hide SigningEnabled, MoveEnabled, EffectOf, PayloadOf;
  }

  lemma {:induction false} ReadingsLast(r: Run, k: nat, j: nat, e: Id)
    requires IsRun(r) && k <= j < |r.states| && e in r.states[k].jobs && !r.states[k].jobs[e].phase.Fetching?
    ensures e in r.states[j].jobs && Shrinks(r.states[k].jobs[e], r.states[j].jobs[e])
  {
    hide Enabled, Apply, Init, Inv;
    if k < j {
      ReadingsLast(r, k, j - 1, e);
      RunInv(r, j - 1);
      assert !r.states[j - 1].jobs[e].phase.Fetching?;
      StepShrinks(r.states[j - 1], r.steps[j - 1], e);
    }
  }

  lemma StepShrinks(s: State, x: Step, e: Id)
    requires Inv(s) && Enabled(s, x) && e in s.jobs && !s.jobs[e].phase.Fetching?
    ensures e in Apply(s, x).jobs && Shrinks(s.jobs[e], Apply(s, x).jobs[e])
  {
    hide Enabled, Apply, Shrinks, DeliveryOk, FanoutOk, SignupsOk, ScopesOk, StoreOk, StatusesOk, HandshakesOk,
      NoncesOk, DoneOk, OrphansOk;
    Counters(s);
    ReadingShrinks(s, x, e);
  }

  /** The nonce that an event holds is the one that stood when it fetched. */
  lemma ReadAt(r: Run, k: nat, j: nat, e: Id, i: Id)
    requires IsRun(r) && k < j < |r.states| && r.steps[k] == Handle(e, Fetch) && Issued(r.states[j], e, i)
    ensures Started(r.states[k + 1], i) && Nonce(r.states[j], e, i) == r.states[k + 1].subs[i].nextNonce
  {
    FetchReads(r, k, e);
    hide DeliveryOk, SignupsOk, StatusesOk, HandshakesOk, NoncesOk, DoneOk, OrphansOk, FanoutOk, ScopesOk, StoreOk,
      Started;
    RunInv(r, k + 1);
    hide IsRun;
    ReadingsLast(r, k + 1, j, e);
    IssuedReady(r.states[k + 1], e, i);
  }

  lemma FetchReads(r: Run, k: nat, e: Id)
    requires IsRun(r) && k < |r.steps| && r.steps[k] == Handle(e, Fetch)
    ensures var s' := r.states[k + 1];
      && e in s'.jobs && !s'.jobs[e].phase.Fetching?
      && forall i :: i in s'.jobs[e].affected ==> i in s'.subs && s'.jobs[e].affected[i] == s'.subs[i].nextNonce
  {
  }

  /**
   * In every run, storage failures included: of two events that hold a nonce of one subscription, the
   * one that fetched later holds the larger by exactly the bumps in between. They hold the same nonce if
   * and only if no bump of the subscription succeeded between their fetches.
   */
  lemma NoncesDiffer(r: Run, k: nat, k': nat, j: nat, e: Id, e': Id, i: Id)
    requires IsRun(r) && k < k' < j < |r.states| && r.steps[k] == Handle(e, Fetch) && r.steps[k'] == Handle(e', Fetch)
    requires Issued(r.states[j], e, i) && Issued(r.states[j], e', i)
    ensures Nonce(r.states[j], e', i) == Nonce(r.states[j], e, i) + BumpsBetween(r, k + 1, k' + 1, i)
    ensures Nonce(r.states[j], e', i) == Nonce(r.states[j], e, i) <==>
            forall h :: k < h < k' ==> !Bumps(r.states[h], r.steps[h], i)
  {
    hide Enabled, Apply, Init, Issued, Nonce, Started, BumpsBetween;
    assert !Bumps(r.states[k'], r.steps[k'], i);
    ReadAt(r, k, j, e, i);
    ReadAt(r, k', j, e', i);
    RunCounts(r, k + 1, k' + 1, i);
    NoBumpsIff(r, k + 1, k' + 1, i);
  }

  // ---- exact conditions, in every run ----

  /** A nonce is read by fetching only. */
  lemma ReadsByFetching(s: State, x: Step, e: Id, i: Id)
    requires Enabled(s, x) && Issued(Apply(s, x), e, i) && !Issued(s, e, i)
    ensures x == Handle(e, Fetch)
  {
    assert x.Handle? ==> x.e in s.jobs;
    hide HandlingEnabled, JobAfter, ApplyHandling, ApplySigning, Perform, Ring, EffectOf, PayloadOf, SigningEnabled,
      MoveEnabled;
    if x.Handle? {
      HandlingBooks(s, x.e, x.handling);
      if !x.handling.Fetch? { ReadsWhenFetching(s, x.e, x.handling); }
    }
  }

  lemma ReadsWhenFetching(s: State, e: Id, x: Handling)
    requires HandlingEnabled(s, e, x) && !x.Fetch?
    ensures forall i :: i in JobAfter(s, e, x).affected ==> i in s.jobs[e].affected
  {
  }

  lemma {:induction false} FetchOf(r: Run, j: nat, e: Id, i: Id) returns (k: nat)
    requires IsRun(r) && j < |r.states| && Issued(r.states[j], e, i)
    ensures k < j && r.steps[k] == Handle(e, Fetch)
  {
    hide Enabled, Apply;
    if Issued(r.states[j - 1], e, i) {
      k := FetchOf(r, j - 1, e, i);
    } else {
      k := j - 1;
      ReadsByFetching(r.states[k], r.steps[k], e, i);
    }
  }

  /** `e` and `e'` hold nonces of `i` at state `j`; `e` fetched at step `k`, and `e'` later, at step `k'`. */
  ghost predicate HoldBoth(r: Run, j: nat, e: Id, k: nat, e': Id, k': nat, i: Id) {
    && k < k' < j < |r.states| && k' < |r.steps| && e != e'
    && r.steps[k] == Handle(e, Fetch) && r.steps[k'] == Handle(e', Fetch)
    && Issued(r.states[j], e, i) && Issued(r.states[j], e', i)
  }

  ghost predicate BumpedBetween(r: Run, k: nat, k': nat, i: Id) {
    exists h :: k < h < k' && h < |r.steps| && h < |r.states| && Bumps(r.states[h], r.steps[h], i)
  }

  lemma HeldNonces(r: Run, j: nat, e: Id, k: nat, e': Id, k': nat, i: Id)
    requires IsRun(r) && HoldBoth(r, j, e, k, e', k', i)
    ensures Nonce(r.states[j], e, i) <= Nonce(r.states[j], e', i)
    ensures BumpedBetween(r, k, k', i) <==> Nonce(r.states[j], e, i) != Nonce(r.states[j], e', i)
  {
    NoncesDiffer(r, k, k', j, e, e', i);
    hide IsRun, Bumps, BumpsBetween, Issued, Nonce;
  }

  /** The fetches of two events that hold nonces, one after the other. */
  lemma BothFetched(r: Run, j: nat, e: Id, e': Id, i: Id) returns (k: nat, k': nat)
    requires IsRun(r) && j < |r.states| && Issued(r.states[j], e, i) && Issued(r.states[j], e', i) && e != e'
    ensures HoldBoth(r, j, e, k, e', k', i) || HoldBoth(r, j, e', k', e, k, i)
  {
    hide Enabled, Apply, Init, Issued;
    k := FetchOf(r, j, e, i);
    k' := FetchOf(r, j, e', i);
  }

  /**
   * In every run: the nonces that events hold of a subscription are distinct if and only if between any
   * two of their fetches some bump of it succeeded.
   */
  lemma DistinctExactly(r: Run, j: nat, i: Id)
    requires IsRun(r) && j < |r.states|
    ensures Distinct(r.states[j], i) <==>
            forall e, k, e', k' :: HoldBoth(r, j, e, k, e', k', i) ==> BumpedBetween(r, k, k', i)
  {
    hide IsRun, BumpedBetween, Nonce;
    if Distinct(r.states[j], i) {
      forall e, k, e', k' | HoldBoth(r, j, e, k, e', k', i) ensures BumpedBetween(r, k, k', i) {
        HeldNonces(r, j, e, k, e', k', i);
      }
    } else {
      var e, e' :| Issued(r.states[j], e, i) && Issued(r.states[j], e', i) && e != e'
        && Nonce(r.states[j], e, i) == Nonce(r.states[j], e', i);
      var k, k' := BothFetched(r, j, e, e', i);
      if HoldBoth(r, j, e, k, e', k', i) {
        HeldNonces(r, j, e, k, e', k', i);
      } else {
        HeldNonces(r, j, e', k', e, k, i);
      }
    }
  }

  /**
   * In every run: they are in event order if and only if of any two events that hold one the earlier
   * fetched first, and some bump of it succeeded between their fetches.
   */
  lemma OrderedExactly(r: Run, j: nat, i: Id)
    requires IsRun(r) && j < |r.states|
    ensures Ordered(r.states[j], i) <==>
            forall e, k, e', k' :: HoldBoth(r, j, e, k, e', k', i) ==> e < e' && BumpedBetween(r, k, k', i)
  {
    hide IsRun, BumpedBetween, Nonce;
    if Ordered(r.states[j], i) {
      forall e, k, e', k' | HoldBoth(r, j, e, k, e', k', i) ensures e < e' && BumpedBetween(r, k, k', i) {
        HeldNonces(r, j, e, k, e', k', i);
      }
    } else {
      var e, e' :| Issued(r.states[j], e, i) && Issued(r.states[j], e', i) && e < e'
        && Nonce(r.states[j], e, i) >= Nonce(r.states[j], e', i);
      var k, k' := BothFetched(r, j, e, e', i);
      if HoldBoth(r, j, e, k, e', k', i) { HeldNonces(r, j, e, k, e', k', i); }
    }
  }
}
