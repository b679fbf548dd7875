/**
 * Nonces. An event reads `nextNonce` of each matched subscription at its fetch and increments it one
 * await later. The nonces of a subscription are distinct exactly when no event fetches it between
 * another's fetch and bump, and in event order exactly when it is not fetched after a later event
 * either. The account is kept per subscription, because no step of one touches another's nonces.
 */
module WebhookNonces {
  import opened Payloads
  import opened WebhookState
  import opened WebhookSteps
  import opened WebhookDelivery
  import opened WebhookFanout
  import opened WebhookSignups
  import opened WebhookTransactions

  /** Event `e` has read a nonce for subscription `i`. */
  ghost predicate Issued(s: State, e: Id, i: Id) {
    e in s.jobs && i in s.jobs[e].affected
  }

  ghost function Nonce(s: State, e: Id, i: Id): int
    requires Issued(s, e, i)
  {
    s.jobs[e].affected[i]
  }

  ghost predicate Open(s: State, e: Id) {
    e in s.jobs && s.jobs[e].phase.Bumping?
  }

  /** The first nonce of a subscription: 1 if the response to the request counted as number 0. */
  ghost function FirstNonce(s: State, i: Id): int {
    if i in s.subs && s.subs[i].origin in s.signups && s.signups[s.subs[i].origin].initial then 1 else 0
  }

  ghost predicate StartOk(s: State, i: Id) {
    && i in s.subs && s.subs[i].origin in s.signups
    && var u := s.signups[s.subs[i].origin];
       if u.initial && !u.phase.Complete? then s.subs[i].nextNonce == 0 else s.subs[i].nextNonce >= FirstNonce(s, i)
  }

  ghost predicate BoundOk(s: State, e: Id, i: Id)
    requires Issued(s, e, i)
  {
    i in s.subs && FirstNonce(s, i) <= Nonce(s, e, i) <= s.subs[i].nextNonce
    && (Open(s, e) || Nonce(s, e, i) < s.subs[i].nextNonce)
  }

  ghost predicate Bounded(s: State, i: Id) {
    forall e :: Issued(s, e, i) ==> BoundOk(s, e, i)
  }

  /** While an event's window is open, nobody else bumps. */
  ghost predicate Exclusive(s: State, i: Id) {
    forall e :: Issued(s, e, i) && Open(s, e) ==> i in s.subs && Nonce(s, e, i) == s.subs[i].nextNonce
  }

  /** No two events read the same nonce. */
  ghost predicate Distinct(s: State, i: Id) {
    forall e, e' :: Issued(s, e, i) && Issued(s, e', i) && e != e' ==> Nonce(s, e, i) != Nonce(s, e', i)
  }

  /** Nonces grow strictly with event ids. */
  ghost predicate Ordered(s: State, i: Id) {
    forall e, e' :: Issued(s, e, i) && Issued(s, e', i) && e < e' ==> Nonce(s, e, i) < Nonce(s, e', i)
  }

  ghost predicate Used(s: State, i: Id, m: int) {
    exists e :: Issued(s, e, i) && !Open(s, e) && Nonce(s, e, i) == m
  }

  /** Every nonce from the first to the last was read by an event that went on to bump it. */
  ghost predicate Gapless(s: State, i: Id) {
    i in s.subs ==> forall m :: FirstNonce(s, i) <= m < s.subs[i].nextNonce ==> Used(s, i, m)
  }

  ghost predicate NonceOk(s: State, i: Id) {
    && Bounded(s, i)
    && (i in s.subs ==> StartOk(s, i))
    && (i !in s.overlapped ==> Exclusive(s, i) && Distinct(s, i) && Gapless(s, i))
    && (i in s.overlapped ==> i in s.raced && (i in s.unbumped || !Distinct(s, i)))
    && (i !in s.raced ==> Ordered(s, i))
    && (i in s.raced ==> i in s.unbumped || !Ordered(s, i))
  }

  ghost predicate NoncesOk(s: State) {
    forall i :: NonceOk(s, i)
  }

  // ---- steps that read and write no nonce of the subscription ----

  ghost predicate SameIssues(s: State, s': State, i: Id) {
    && (forall e :: Issued(s', e, i) <==> Issued(s, e, i))
    && (forall e :: Issued(s, e, i) ==> Nonce(s', e, i) == Nonce(s, e, i) && (Open(s', e) <==> Open(s, e)))
  }

  ghost predicate SameFlags(s: State, s': State, i: Id) {
    && (i in s'.overlapped <==> i in s.overlapped)
    && (i in s'.raced <==> i in s.raced)
    && (i in s'.unbumped <==> i in s.unbumped)
  }

  ghost predicate Unread(s: State, i: Id) {
    forall e :: !Issued(s, e, i)
  }

  ghost predicate Steady(s: State, s': State, i: Id) {
    i in s.subs && i in s'.subs && s'.subs[i].nextNonce == s.subs[i].nextNonce && FirstNonce(s', i) == FirstNonce(s, i)
  }

  /** The counter stands, unless no event has read it and it starts now. */
  ghost predicate SameCount(s: State, s': State, i: Id) {
    && (i in s.subs ==> i in s'.subs)
    && (i in s'.subs ==>
          StartOk(s', i) && (Steady(s, s', i) || (Unread(s, i) && s'.subs[i].nextNonce <= FirstNonce(s', i))))
  }

  lemma NonceStays(s: State, s': State, i: Id)
    requires NonceOk(s, i) && SameIssues(s, s', i) && SameFlags(s, s', i) && SameCount(s, s', i)
    ensures NonceOk(s', i)
  {
    hide StartOk, FirstNonce, Open;
    forall e | Issued(s', e, i) ensures BoundOk(s', e, i) {
      assert BoundOk(s, e, i);
    }
    if i !in s.overlapped {
      UsesStay(s, s', i);
    }
    PairsStay(s, s', i);
  }

  lemma UsesStay(s: State, s': State, i: Id)
    requires Gapless(s, i) && SameIssues(s, s', i)
    requires i in s'.subs ==> Steady(s, s', i) || s'.subs[i].nextNonce <= FirstNonce(s', i)
    ensures Gapless(s', i)
  {
    hide FirstNonce, Open;
    if i in s'.subs {
      forall m | FirstNonce(s', i) <= m < s'.subs[i].nextNonce ensures Used(s', i, m) {
        assert Used(s, i, m);
        var e :| Issued(s, e, i) && !Open(s, e) && Nonce(s, e, i) == m;
        assert Issued(s', e, i) && !Open(s', e) && Nonce(s', e, i) == m;
      }
    }
  }

  /** What two events have read of a subscription stays as it is. */
  ghost predicate KeepsNonces(s: State, s': State, i: Id) {
    forall e :: Issued(s, e, i) ==> Issued(s', e, i) && Nonce(s', e, i) == Nonce(s, e, i)
  }

  lemma PairsStay(s: State, s': State, i: Id)
    requires KeepsNonces(s, s', i)
    ensures Distinct(s', i) ==> Distinct(s, i)
    ensures Ordered(s', i) ==> Ordered(s, i)
  {
    hide Issued;
  }

  // ---- fetch ----

  /** Context of a fetch: nothing read before, and the subscriptions it matches are past their start. */
  ghost predicate Ready(s: State, e: Id) {
    && e in s.jobs && e in s.events && s.jobs[e].phase.Fetching? && s.jobs[e].affected == map[]
    && forall i :: i in Matched(s.subs, s.jobs[e].tx, s.now) ==> i in s.subs && s.subs[i].nextNonce >= FirstNonce(s, i)
  }

  lemma ReadyToFetch(s: State, e: Id)
    requires NoncesOk(s) && FanoutOk(s) && ScopesOk(s) && StoreOk(s) && HandlingEnabled(s, e, Fetch)
    ensures Ready(s, e)
  {
    assert JobOk(s, e, s.jobs[e]);
    forall i | i in Matched(s.subs, s.jobs[e].tx, s.now) ensures s.subs[i].nextNonce >= FirstNonce(s, i) {
      assert NonceOk(s, i) && OriginOk(s, i);
      assert ScopeOk(s, s.signups[s.subs[i].origin]);
    }
  }

  /** After the fetch, `e` has read the current nonce of what it matched; everything else stands. */
  lemma FetchIssues(s: State, e: Id, i: Id)
    requires Ready(s, e)
    ensures var s', matched := ApplyHandling(s, e, Fetch), i in Matched(s.subs, s.jobs[e].tx, s.now);
      && s'.subs == s.subs && s'.signups == s.signups && s'.unbumped == s.unbumped
      && (i in s'.overlapped <==> i in s.overlapped || (matched && Overlaps(s.jobs, e, i)))
      && (i in s'.raced <==> i in s.raced || (matched && (Overlaps(s.jobs, e, i) || Overtaken(s.jobs, e, i))))
      && !Issued(s, e, i) && (Issued(s', e, i) <==> matched)
      && (matched ==> i in s.subs && Open(s', e) && Nonce(s', e, i) == s.subs[i].nextNonce)
      && (forall e': Id :: e' != e ==> (Issued(s', e', i) <==> Issued(s, e', i)) && (Open(s', e') <==> Open(s, e')))
      && (forall e': Id :: e' != e && Issued(s, e', i) ==> Nonce(s', e', i) == Nonce(s, e', i))
  {
    hide Overlaps, Overtaken;
    var affected := NoncesOf(s.subs, Matched(s.subs, s.jobs[e].tx, s.now));
    assert i in affected ==> affected != map[];
  }

  lemma OverlapIsOpen(s: State, e: Id, i: Id)
    requires !Issued(s, e, i)
    ensures Overlaps(s.jobs, e, i) <==> exists e' :: Issued(s, e', i) && Open(s, e')
    ensures Overtaken(s.jobs, e, i) <==> exists e' :: Issued(s, e', i) && e < e'
  {
    if Overlaps(s.jobs, e, i) {
      var e' :| e' in s.jobs && e' != e && i in s.jobs[e'].affected && s.jobs[e'].phase.Bumping?;
      assert Issued(s, e', i) && Open(s, e');
    }
    if Overtaken(s.jobs, e, i) {
      var e' :| e' in s.jobs && e < e' && i in s.jobs[e'].affected;
      assert Issued(s, e', i);
    }
  }

  /** The nonce read is above all others if no window was open, and equal to one that was. */
  lemma FetchPairs(s: State, e: Id, i: Id)
    requires Ready(s, e) && NonceOk(s, i) && i in Matched(s.subs, s.jobs[e].tx, s.now)
    ensures var s' := ApplyHandling(s, e, Fetch);
      && (i !in s'.overlapped ==> Distinct(s', i) && Exclusive(s', i))
      && (i in s'.overlapped ==> i in s'.raced && (i in s'.unbumped || !Distinct(s', i)))
      && (i !in s'.raced ==> Ordered(s', i))
      && (i in s'.raced ==> i in s'.unbumped || !Ordered(s', i))
  {
    FetchIssues(s, e, i);
    OverlapIsOpen(s, e, i);
    hide ApplyHandling, Matched, Overlaps, Overtaken, Ready, Issued, Open, Nonce;
    var s' := ApplyHandling(s, e, Fetch);
    assert forall e' :: Issued(s, e', i) ==> BoundOk(s, e', i);
    PairsStay(s, s', i);
  }

  lemma FetchNonce(s: State, e: Id, i: Id)
    requires Ready(s, e) && NonceOk(s, i)
    ensures NonceOk(ApplyHandling(s, e, Fetch), i)
  {
    var s' := ApplyHandling(s, e, Fetch);
    FetchIssues(s, e, i);
    if i in Matched(s.subs, s.jobs[e].tx, s.now) {
      FetchPairs(s, e, i);
      hide ApplyHandling, Matched, Overlaps, Overtaken, Issued, Distinct, Ordered, Exclusive;
      assert s.subs[i].nextNonce >= FirstNonce(s, i);
      hide Ready;
      forall e' | Issued(s', e', i) ensures BoundOk(s', e', i) {
        assert e' != e ==> BoundOk(s, e', i);
      }
      if i !in s'.overlapped {
        forall m | FirstNonce(s', i) <= m < s'.subs[i].nextNonce ensures Used(s', i, m) {
          assert Used(s, i, m);
          var e' :| Issued(s, e', i) && !Open(s, e') && Nonce(s, e', i) == m;
          assert Issued(s', e', i) && !Open(s', e') && Nonce(s', e', i) == m;
        }
      }
    } else {
      hide ApplyHandling, Matched, Overlaps, Overtaken, Ready, Issued;
      NonceStays(s, s', i);
    }
  }

  // ---- bump ----

  lemma BumpIssues(s: State, e: Id, i: Id)
    requires HandlingEnabled(s, e, Bump)
    ensures var s' := ApplyHandling(s, e, Bump);
      && SameFlags(s, s', i) && s'.signups == s.signups && Open(s, e)
      && (forall e' :: Issued(s', e', i) <==> Issued(s, e', i))
      && (forall e' :: Issued(s, e', i) ==> Nonce(s', e', i) == Nonce(s, e', i))
      && (forall e' :: Open(s', e') <==> Open(s, e') && e' != e)
      && (i in s'.subs <==> i in s.subs)
      && (i in s.subs ==>
            s'.subs[i] == s.subs[i].(nextNonce := s.subs[i].nextNonce + if Issued(s, e, i) then 1 else 0))
  {
    var s' := ApplyHandling(s, e, Bump);
    assert s'.jobs[e].affected == s.jobs[e].affected;
  }

  ghost predicate Started(s: State, i: Id) {
    && i in s.subs && s.subs[i].origin in s.signups
    && (s.signups[s.subs[i].origin].initial ==> s.signups[s.subs[i].origin].phase.Complete?)
  }

  /** The bump closes the only window on the subscription, and uses up exactly the nonce it read. */
  lemma BumpNonce(s: State, e: Id, i: Id)
    requires NonceOk(s, i) && HandlingEnabled(s, e, Bump) && (Issued(s, e, i) ==> Started(s, i))
    ensures NonceOk(ApplyHandling(s, e, Bump), i)
  {
    BumpIssues(s, e, i);
    hide ApplyHandling, HandlingEnabled, Issued, Open;
    var s' := ApplyHandling(s, e, Bump);
    forall e' | Issued(s', e', i) ensures BoundOk(s', e', i) {
      assert BoundOk(s, e', i);
    }
    PairsStay(s', s, i);
    PairsStay(s, s', i);
    if i !in s.overlapped {
      BumpUses(s, s', e, i);
    }
  }

  lemma BumpUses(s: State, s': State, e: Id, i: Id)
    requires Open(s, e) && Exclusive(s, i) && Distinct(s, i) && Gapless(s, i)
    requires forall e' :: Issued(s', e', i) <==> Issued(s, e', i)
    requires forall e' :: Issued(s, e', i) ==> Nonce(s', e', i) == Nonce(s, e', i)
    requires forall e' :: Open(s', e') <==> Open(s, e') && e' != e
    requires i in s'.subs <==> i in s.subs
    requires i in s.subs ==> FirstNonce(s', i) == FirstNonce(s, i)
    requires i in s.subs ==> s'.subs[i].nextNonce == s.subs[i].nextNonce + if Issued(s, e, i) then 1 else 0
    ensures Exclusive(s', i) && Gapless(s', i)
  {
    hide Issued, Open, FirstNonce;
    if i in s'.subs {
      forall m | FirstNonce(s', i) <= m < s'.subs[i].nextNonce ensures Used(s', i, m) {
        if m < s.subs[i].nextNonce {
          assert Used(s, i, m);
          var e' :| Issued(s, e', i) && !Open(s, e') && Nonce(s, e', i) == m;
          assert Issued(s', e', i) && !Open(s', e') && Nonce(s', e', i) == m;
        } else {
          assert Issued(s', e, i) && !Open(s', e) && Nonce(s', e, i) == m;
        }
      }
    }
  }

  /** A subscription that some event has read belongs to a completed signup. */
  lemma IssuedReady(s: State, e: Id, i: Id)
    requires FanoutOk(s) && ScopesOk(s) && StoreOk(s) && Issued(s, e, i)
    ensures Started(s, i)
  {
    assert JobOk(s, e, s.jobs[e]);
    assert Subscribed(s, s.jobs[e].tx, i);
    assert OriginOk(s, i);
    assert ScopeOk(s, s.signups[s.subs[i].origin]);
  }

  lemma BumpFailsNonce(s: State, e: Id, i: Id)
    requires NonceOk(s, i) && HandlingEnabled(s, e, BumpFails)
    ensures NonceOk(ApplyHandling(s, e, BumpFails), i)
  {
    var s' := ApplyHandling(s, e, BumpFails);
    assert forall e' :: Issued(s', e', i) <==> Issued(s, e', i) && e' != e;
    assert forall e' :: Issued(s', e', i) ==> Nonce(s', e', i) == Nonce(s, e', i) && (Open(s', e') <==> Open(s, e'));
    assert Open(s, e) && s'.subs == s.subs && s'.signups == s.signups;
    assert s'.overlapped == s.overlapped && s'.raced == s.raced;
    assert i in s'.unbumped <==> i in s.unbumped || Issued(s, e, i);
    hide ApplyHandling, HandlingEnabled, Issued, Open;
    if Issued(s, e, i) {
      forall e' | Issued(s', e', i) ensures BoundOk(s', e', i) {
        assert BoundOk(s, e', i);
      }
      PairsStay(s', s, i);
      if i !in s.overlapped {
        forall m | FirstNonce(s', i) <= m < s'.subs[i].nextNonce ensures Used(s', i, m) {
          assert Used(s, i, m);
          var e' :| Issued(s, e', i) && !Open(s, e') && Nonce(s, e', i) == m;
          assert Issued(s', e', i) && !Open(s', e') && Nonce(s', e', i) == m;
        }
      }
    } else {
      NonceStays(s, s', i);
    }
  }

  // ---- everything else ----

  lemma HandlingNonces(s: State, e: Id, x: Handling)
    requires NoncesOk(s) && FanoutOk(s) && ScopesOk(s) && StoreOk(s) && HandlingEnabled(s, e, x)
    ensures NoncesOk(ApplyHandling(s, e, x))
  {
    assert JobOk(s, e, s.jobs[e]);
    hide ApplyHandling, FanoutOk, ScopesOk, StoreOk, NonceOk, HandlingEnabled, JobOk, Ready, Started, Issued;
    if x.Fetch? { ReadyToFetch(s, e); }
    forall i ensures NonceOk(ApplyHandling(s, e, x), i) {
      if x.Fetch? {
        FetchNonce(s, e, i);
      } else if x.Bump? {
        if Issued(s, e, i) { IssuedReady(s, e, i); }
        BumpNonce(s, e, i);
      } else if x.BumpFails? {
        BumpFailsNonce(s, e, i);
      } else {
        OtherHandling(s, e, x, i);
      }
    }
  }

  predicate TouchesNonces(x: Handling) {
    x.Fetch? || x.Bump? || x.BumpFails?
  }

  lemma JobWindow(s: State, e: Id, x: Handling)
    requires HandlingEnabled(s, e, x) && JobOk(s, e, s.jobs[e]) && !TouchesNonces(x)
    ensures JobAfter(s, e, x).affected == s.jobs[e].affected
    ensures JobAfter(s, e, x).phase.Bumping? <==> s.jobs[e].phase.Bumping?
  {
  }

  lemma OtherHandling(s: State, e: Id, x: Handling, i: Id)
    requires NonceOk(s, i) && HandlingEnabled(s, e, x) && JobOk(s, e, s.jobs[e]) && !TouchesNonces(x)
    ensures NonceOk(ApplyHandling(s, e, x), i)
  {
    JobWindow(s, e, x);
    HandlingBooks(s, e, x);
    HandlingCount(s, e, x, i);
    hide ApplyHandling, JobAfter, JobOk, NonceOk, SameFlags, SameCount, HandlingEnabled;
    NonceStays(s, ApplyHandling(s, e, x), i);
  }

  lemma HandlingCount(s: State, e: Id, x: Handling, i: Id)
    requires NonceOk(s, i) && HandlingEnabled(s, e, x) && !TouchesNonces(x)
    ensures SameCount(s, ApplyHandling(s, e, x), i) && SameFlags(s, ApplyHandling(s, e, x), i)
  {
    hide JobAfter, Bounded, Exclusive, Distinct, Ordered, Gapless, HandlingEnabled;
  }

  // ---- signups ----

  /** A signup about to set the nonce comes from a request, and no event has read its subscription. */
  lemma SetNonceReady(s: State, g: Id)
    requires NoncesOk(s) && FanoutOk(s) && ScopesOk(s) && StoreOk(s) && SignupsOk(s) && SigningEnabled(s, g, SetNonce)
    ensures var u := s.signups[g];
      u.initial && u.phase.sub in s.subs && s.subs[u.phase.sub].origin == g && Unread(s, u.phase.sub)
    ensures forall i :: i in s.subs && s.subs[i].origin == g ==> i == s.signups[g].phase.sub
  {
    var u := s.signups[g];
    assert SignupOk(s, g, u) && ScopeOk(s, u);
    forall i | i in s.subs && s.subs[i].origin == g ensures i == u.phase.sub {
      assert OriginOk(s, i);
    }
    hide FanoutOk, ScopesOk, StoreOk, SignupsOk, NoncesOk;
    forall e ensures !Issued(s, e, u.phase.sub) {
      if Issued(s, e, u.phase.sub) { IssuedReady(s, e, u.phase.sub); }
    }
  }

  lemma SetNonceCount(s: State, g: Id, i: Id)
    requires SigningEnabled(s, g, SetNonce) && s.signups[g].initial && Unread(s, s.signups[g].phase.sub)
    requires i in s.subs ==> StartOk(s, i) && (s.subs[i].origin == g ==> i == s.signups[g].phase.sub)
    requires i == s.signups[g].phase.sub ==> i in s.subs && s.subs[i].origin == g
    ensures SameCount(s, ApplySigning(s, g, SetNonce), i)
  {
    hide Unread;
  }

  lemma OtherSigningCount(s: State, g: Id, x: Signing, i: Id)
    requires SigningEnabled(s, g, x) && !x.SetNonce? && (i in s.subs ==> StartOk(s, i))
             && (i !in s.subs ==> Unread(s, i))
    ensures SameCount(s, ApplySigning(s, g, x), i)
  {
    hide Unread;
  }

  lemma SigningCount(s: State, g: Id, x: Signing, i: Id)
    requires NoncesOk(s) && FanoutOk(s) && ScopesOk(s) && StoreOk(s) && SignupsOk(s) && SigningEnabled(s, g, x)
    ensures SameCount(s, ApplySigning(s, g, x), i)
  {
    assert NonceOk(s, i);
    assert i !in s.subs ==> Unread(s, i) by {
      assert forall e :: Issued(s, e, i) ==> BoundOk(s, e, i);
    }
    hide NoncesOk, FanoutOk, ScopesOk, StoreOk, SignupsOk, StartOk, Unread, ApplySigning, SameCount;
    if x.SetNonce? {
      SetNonceReady(s, g);
      SetNonceCount(s, g, i);
    } else {
      OtherSigningCount(s, g, x, i);
    }
  }

  lemma SigningNonces(s: State, g: Id, x: Signing)
    requires NoncesOk(s) && FanoutOk(s) && ScopesOk(s) && StoreOk(s) && SignupsOk(s) && SigningEnabled(s, g, x)
    ensures NoncesOk(ApplySigning(s, g, x))
  {
    hide SigningEnabled, NonceOk, FanoutOk, ScopesOk, StoreOk, SignupsOk, SameCount;
    var s' := ApplySigning(s, g, x);
    forall i ensures NonceOk(s', i) {
      SigningCount(s, g, x, i);
      NonceStays(s, s', i);
    }
  }

  // ---- all steps ----

  /** No job, nonce, origin or flag changes. */
  lemma QuietNonces(s: State, s': State)
    requires NoncesOk(s) && s'.subs.Keys == s.subs.Keys
    requires forall i :: i in s.subs ==>
             s'.subs[i].nextNonce == s.subs[i].nextNonce && s'.subs[i].origin == s.subs[i].origin
    requires s'.overlapped == s.overlapped && s'.raced == s.raced && s'.unbumped == s.unbumped
    requires forall i :: SameIssues(s, s', i)
    requires forall g :: g in s.signups ==> g in s'.signups && s'.signups[g] == s.signups[g]
    ensures NoncesOk(s')
  {
    hide Bounded, Exclusive, Distinct, Ordered, Gapless, SameIssues;
    forall i ensures NonceOk(s', i) {
      assert NonceOk(s, i) && SameIssues(s, s', i);
      assert i in s'.subs <==> i in s.subs;
      NonceStays(s, s', i);
    }
  }

  lemma PerformNonces(s: State, t: Task, k: nat, eff: Effect)
    requires NoncesOk(s) && k < |FlightOf(s, t).attempts|
    ensures NoncesOk(Perform(s, t, k, eff))
  {
    hide NoncesOk;
    QuietNonces(s, Perform(s, t, k, eff));
  }

  /** Every step keeps the account of nonces. */
  lemma NoncesKept(s: State, x: Step)
    requires NoncesOk(s) && FanoutOk(s) && ScopesOk(s) && StoreOk(s) && SignupsOk(s) && Enabled(s, x)
    requires s.currentEvent + 1 !in s.jobs
    ensures NoncesOk(Apply(s, x))
  {
    hide NoncesOk, FanoutOk, ScopesOk, StoreOk, SignupsOk, EffectOf, Perform, ApplyHandling, HandlingEnabled,
      ApplySigning, SigningEnabled, PayloadOf;
    match x
    case Sign(g, signing) => SigningNonces(s, g, signing);
    case Handle(e, handling) => HandlingNonces(s, e, handling);
    case Go(t, k, move) => PerformNonces(s, t, k, EffectOf(s, t, FlightOf(s, t).attempts[k], move));
    case StatusChange(tx, snap) => QuietNonces(s, ApplyStatusChange(s, tx, snap));
    case Fire(t, h) => QuietNonces(s, Ring(s, t, h));
    case Tick(ms) => QuietNonces(s, Apply(s, x));
    case Submit(g, url) => QuietNonces(s, ApplySubmit(s, g, url));
    case Subscribe(g, scope, url) => QuietNonces(s, Apply(s, x));
  }
}
