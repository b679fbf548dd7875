/**
 * Runs that show what the protocol does not promise: nonces repeat when two fetches overlap; a
 * subscriber that answers its handshake late is marked Done without hearing of the terminal status;
 * and if a transaction reports two terminal statuses, one may be handled to the end before the other.
 */
module WebhookWitnesses {
  import opened Payloads
  import opened Wrappers
  import opened WebhookState
  import opened WebhookSteps
  import opened WebhookNonces
  import opened WebhookTheorems
  import opened WebhookOutrun

  /** Some run ends in this state. */
  ghost predicate Reachable(s: State) {
    exists r :: IsRun(r) && r.states[|r.states| - 1] == s
  }

  lemma Reach(s: State, x: Step)
    requires Reachable(s) && Enabled(s, x)
    ensures Reachable(Apply(s, x))
  {
    hide Enabled, Apply, Init;
    var r :| IsRun(r) && r.states[|r.states| - 1] == s;
    var r' := Run(r.states + [Apply(s, x)], r.steps + [x]);
    assert IsRun(r');
    assert r'.states[|r'.states| - 1] == Apply(s, x);
  }

  const START :=
    State(Config(1000, 1, 1), 0, map[], map[], map[], map[], map[], 0, map[], map[], map[], {}, 0, [], {}, {}, {})

  const RUNNING := Snapshot(TransactionStatus.Running, Single("tag"), None, None, None, None)
  const ENDED := Snapshot(TransactionStatus.Rejected, Single("tag"), None, None, None, Some("error"))

  lemma StartReachable()
    ensures Reachable(START)
  {
    var r := Run([START], []);
    assert IsRun(r) && r.states[|r.states| - 1] == START;
  }

  /** One transaction runs, and its subscription's handshake waits in a timer. */
  ghost predicate Subscribing(s: State) {
    && s.now == 0 && 1 in s.txs && s.txs[1].launched && s.txs[1].unsubs == 0 && s.store == {1}
    && s.jobs == map[] && s.events == map[] && s.currentEvent == 0 && s.notifs == map[]
    && s.subs == map[7 := Subscription(TransactionUpdate, 1, "url", 0, 1000, Inactive, 1, 1, 3)]
    && SlotOf(s, Handshake(7)) == AddTimer(EmptySlot) && FlightOf(s, Handshake(7)) == NoFlight
    && s.unbumped == {}
  }

  lemma SubmittedReachable() returns (s: State)
    ensures Reachable(s)
    ensures s == START.(currentTx := 1, store := {1}, txs := map[1 := Tx(false, 0, [])],
                        signups := map[3 := Signup(1, "url", 0, true, Scheduling(7))],
                        subs := map[7 := Subscription(TransactionUpdate, 1, "url", 0, 1000, Inactive, 1, 0, 3)],
                        flights := map[Handshake(7) := NoFlight.(newborn := true)])
  {
    StartReachable();
    Reach(START, Submit(3, "url"));
    s := ApplySubmit(START, 3, "url");
    Reach(s, Sign(3, StoreSubscription(7)));
    s := ApplySigning(s, 3, StoreSubscription(7));
  }

  lemma SubscribingReachable() returns (s: State)
    ensures Reachable(s) && Subscribing(s)
  {
    s := SubmittedReachable();
    Reach(s, Sign(3, ScheduleHandshake));
    s := ApplySigning(s, 3, ScheduleHandshake);
    Reach(s, Sign(3, SetNonce));
    s := ApplySigning(s, 3, SetNonce);
  }

  /** The handshake's POST is out, and nothing else has happened. */
  ghost predicate Asked(s: State) {
    && s.now == 0 && 1 in s.txs && s.txs[1].launched && s.txs[1].unsubs == 0 && s.store == {1}
    && s.notifs == map[] && s.unbumped == {}
    && s.subs == map[7 := Subscription(TransactionUpdate, 1, "url", 0, 1000, Inactive, 1, 1, 3)]
    && FlightOf(s, Handshake(7)).attempts == [Awaiting(1, "secret")] && !FlightOf(s, Handshake(7)).dropped
  }

  lemma AskedReachable() returns (s: State)
    ensures Reachable(s) && Asked(s) && s.jobs == map[] && s.events == map[] && s.currentEvent == 0
  {
    var t := Handshake(7);
    s := DrawingReachable();
    hide Reachable;
    Reach(s, Go(t, 0, Draw("secret")));
    s := Perform(s, t, 0, EffectOf(s, t, Drawing(1, "url"), Draw("secret")));
  }

  lemma DrawingReachable() returns (s: State)
    ensures Reachable(s) && !FlightOf(s, Handshake(7)).dropped
    ensures FlightOf(s, Handshake(7)).attempts == [Drawing(1, "url")]
    ensures Subscribing(s.(slots := map[Handshake(7) := AddTimer(EmptySlot)], flights := map[]))
  {
    var t := Handshake(7);
    s := ReadingReachable();
    hide Reachable;
    Reach(s, Go(t, 0, Read));
    s := Perform(s, t, 0, EffectOf(s, t, Reading, Read));
  }

  lemma ReadingReachable() returns (s: State)
    ensures Reachable(s) && FlightOf(s, Handshake(7)).attempts == [Reading] && !FlightOf(s, Handshake(7)).dropped
    ensures Subscribing(s.(slots := map[Handshake(7) := AddTimer(EmptySlot)], flights := map[]))
  {
    s := SubscribingReachable();
    hide Reachable;
    Reach(s, Fire(Handshake(7), 0));
    s := Ring(s, Handshake(7), 0);
  }

  /** The subscriber echoes the secret and becomes Active; events and their handlers do not notice. */
  lemma Echoes(s: State) returns (s': State)
    requires Reachable(s) && Asked(s)
    ensures Reachable(s') && s'.jobs == s.jobs && s'.events == s.events && s'.currentEvent == s.currentEvent
    ensures s'.subs == map[7 := Subscription(TransactionUpdate, 1, "url", 0, 1000, Active, 1, 1, 3)]
    ensures s'.notifs == map[] && s'.now == 0 && s'.txs == s.txs && s'.store == s.store && s'.unbumped == {}
    ensures !FlightOf(s', Handshake(7)).dropped
  {
    var t, r := Handshake(7), Response(HTTP_OK, Some("secret"));
    hide Reachable;
    Reach(s, Go(t, 0, Answer(r)));
    s' := Perform(s, t, 0, EffectOf(s, t, Awaiting(1, "secret"), Answer(r)));
    Reach(s', Go(t, 0, Settle));
    s' := Perform(s', t, 0, EffectOf(s', t, Settling(1, Confirm), Settle));
  }

  /** Two overlapping events read the same nonce, although storage never failed. */
  lemma OverlapRepeatsNonce() returns (s: State)
    ensures Reachable(s) && s.unbumped == {} && 7 in s.overlapped
    ensures Issued(s, 1, 7) && Issued(s, 2, 7) && Nonce(s, 1, 7) == Nonce(s, 2, 7) == 1
  {
    s := AskedReachable();
    s := Echoes(s);
    s := TwoEvents(s);
    s := TwoFetches(s);
  }

  lemma TwoEvents(s: State) returns (s': State)
    requires Reachable(s) && 1 in s.txs && s.txs[1].launched && s.txs[1].unsubs == 0 && s.currentEvent == 0
    requires s.jobs == map[] && s.events == map[]
    ensures Reachable(s') && s'.subs == s.subs && s'.now == s.now && s'.unbumped == s.unbumped
    ensures s'.jobs == map[1 := Job(1, TransactionStatus.Running, Fetching, map[], map[]),
                           2 := Job(1, TransactionStatus.Running, Fetching, map[], map[])]
    ensures s'.events.Keys == {1, 2}
  {
    hide Reachable;
    Reach(s, StatusChange(1, RUNNING));
    s' := ApplyStatusChange(s, 1, RUNNING);
    Reach(s', StatusChange(1, RUNNING));
    s' := ApplyStatusChange(s', 1, RUNNING);
  }

  lemma TwoFetches(s: State) returns (s': State)
    requires Reachable(s) && s.now == 0 && s.unbumped == {} && s.events.Keys == {1, 2}
    requires s.subs == map[7 := Subscription(TransactionUpdate, 1, "url", 0, 1000, Active, 1, 1, 3)]
    requires s.jobs == map[1 := Job(1, TransactionStatus.Running, Fetching, map[], map[]),
                           2 := Job(1, TransactionStatus.Running, Fetching, map[], map[])]
    ensures Reachable(s') && s'.unbumped == {} && 7 in s'.overlapped
    ensures Issued(s', 1, 7) && Issued(s', 2, 7) && Nonce(s', 1, 7) == Nonce(s', 2, 7) == 1
  {
    hide Reachable;
    assert 7 in Matched(s.subs, 1, 0);
    Reach(s, Handle(1, Fetch));
    var m := ApplyHandling(s, 1, Fetch);
    assert 7 in m.jobs[1].affected && m.jobs[1].phase.Bumping?;
    Reach(m, Handle(2, Fetch));
    s' := ApplyHandling(m, 2, Fetch);
    assert Overlaps(m.jobs, 2, 7);
  }

  /** A terminal event is fetched while the handshake is out: the subscription ends Done, and was told nothing. */
  lemma LateEchoMissesTerminal() returns (s: State)
    ensures Reachable(s) && s.unbumped == {} && !FlightOf(s, Handshake(7)).dropped
    ensures 7 in s.subs && s.subs[7].status == Done && s.notifs == map[]
    ensures 1 in s.events && s.events[1].scope == s.subs[7].scope && Terminal(s.events[1].payload.status)
  {
    s := AskedReachable();
    s := TerminalFetched(s);
    s := Echoes(s);
    s := MarkedDone(s);
  }

  lemma TerminalFetched(s: State) returns (s': State)
    requires Reachable(s) && Asked(s) && s.jobs == map[] && s.events == map[] && s.currentEvent == 0
    ensures Reachable(s') && Asked(s')
    ensures s'.jobs == map[1 := Job(1, TransactionStatus.Rejected, Creating, map[], map[])]
    ensures 1 in s'.events && s'.events[1].scope == 1 && Terminal(s'.events[1].payload.status) && s'.currentEvent == 1
  {
    hide Reachable;
    Reach(s, StatusChange(1, ENDED));
    s' := ApplyStatusChange(s, 1, ENDED);
    Reach(s', Handle(1, Fetch));
    assert Matched(s'.subs, 1, 0) == {};
    s' := ApplyHandling(s', 1, Fetch);
  }

  lemma MarkedDone(s: State) returns (s': State)
    requires Reachable(s) && s.now == 0 && s.notifs == map[] && 1 in s.txs && s.store == {1}
    requires s.subs == map[7 := Subscription(TransactionUpdate, 1, "url", 0, 1000, Active, 1, 1, 3)]
    requires s.jobs == map[1 := Job(1, TransactionStatus.Rejected, Creating, map[], map[])]
    requires 1 in s.events && s.events[1].scope == 1 && Terminal(s.events[1].payload.status)
    ensures s'.flights == s.flights && s'.unbumped == s.unbumped
    ensures Reachable(s') && 7 in s'.subs && s'.subs[7].status == Done && s'.subs[7].scope == 1 && s'.notifs == map[]
    ensures 1 in s'.events && s'.events[1].scope == 1 && Terminal(s'.events[1].payload.status)
  {
    s' := FirstFinished(s);
    hide Reachable;
    Reach(s', Handle(1, FindDone));
    assert 7 in Matched(s'.subs, 1, 0);
    s' := ApplyHandling(s', 1, FindDone);
    Reach(s', Handle(1, MarkDone(7)));
    s' := ApplyHandling(s', 1, MarkDone(7));
  }

  lemma FirstFinished(s: State) returns (s': State)
    requires Reachable(s) && 1 in s.txs && 1 in s.store && 1 in s.events
    requires s.jobs == map[1 := Job(1, TransactionStatus.Rejected, Creating, map[], map[])]
    ensures Reachable(s') && s'.jobs == map[1 := Job(1, TransactionStatus.Rejected, FindingDone, map[], map[])]
    ensures s'.subs == s.subs && s'.notifs == s.notifs && s'.now == s.now && s'.unbumped == s.unbumped
            && s'.flights == s.flights
    ensures 1 in s'.events && s'.events[1] == s.events[1].(processed := true)
  {
    hide Reachable;
    Reach(s, Handle(1, MarkProcessed));
    s' := ApplyHandling(s, 1, MarkProcessed);
    Reach(s', Handle(1, Finish));
    s' := ApplyHandling(s', 1, Finish);
  }

  // ---- two terminal statuses ----

  /** The handshake is answered between two terminal statuses: the first is cleaned up, the second owes. */
  lemma SecondTerminalMisses() returns (r: Run, q: Run)
    ensures IsRun(r) && 2 in Last(r).jobs && Terminal(Last(r).jobs[2].status) && Owes(Last(r).jobs[2], 7)
    ensures Cleans(r, q) && IsDone(Last(q), 7) && !Notified(Last(q), 2, 7)
  {
    var s := AskedReachable();
    s := TerminalFetched(s);
    s := Echoes(s);
    s := SecondFetched(s);
    hide IsRun, Cleans, IsDone, Notified;
    r :| IsRun(r) && r.states[|r.states| - 1] == s;
    assert CanMark(s, 1, 7) && Owes(s.jobs[2], 7);
    q := Outruns(r, 1, 7);
    StillUnnotified(r, q, 2, 7);
  }

  lemma SecondFetched(s: State) returns (s': State)
    requires Reachable(s) && s.now == 0 && 1 in s.txs && s.txs[1].launched && s.txs[1].unsubs == 0 && s.store == {1}
    requires s.subs == map[7 := Subscription(TransactionUpdate, 1, "url", 0, 1000, Active, 1, 1, 3)]
    requires s.jobs == map[1 := Job(1, TransactionStatus.Rejected, Creating, map[], map[])] && 1 in s.events
             && s.currentEvent == 1
    ensures Reachable(s') && s'.jobs.Keys == {1, 2} && 1 in s'.events && s'.subs == s.subs && s'.now == 0
    ensures s'.jobs[1] == Job(1, TransactionStatus.Rejected, Processed, map[], map[]) && Unsubscribes(s', s'.jobs[1])
    ensures s'.jobs[2] == Job(1, TransactionStatus.Rejected, Bumping, map[7 := 1], map[])
    ensures 7 in Matched(s'.subs, 1, 0)
  {
    s' := SecondReported(s);
    hide Reachable;
    Reach(s', Handle(2, Fetch));
    assert Matched(s'.subs, 1, 0) == {7};
    s' := ApplyHandling(s', 2, Fetch);
  }

  lemma SecondReported(s: State) returns (s': State)
    requires Reachable(s) && 1 in s.txs && s.txs[1].launched && s.txs[1].unsubs == 0 && s.store == {1}
    requires s.jobs == map[1 := Job(1, TransactionStatus.Rejected, Creating, map[], map[])] && 1 in s.events
    requires s.currentEvent == 1
    ensures Reachable(s') && s'.subs == s.subs && s'.now == s.now && 1 in s'.txs && s'.store == {1}
    ensures s'.jobs == map[1 := Job(1, TransactionStatus.Rejected, Processed, map[], map[]),
                           2 := Job(1, TransactionStatus.Rejected, Fetching, map[], map[])]
    ensures 1 in s'.events && 2 in s'.events
  {
    hide Reachable;
    Reach(s, StatusChange(1, ENDED));
    s' := ApplyStatusChange(s, 1, ENDED);
    Reach(s', Handle(1, MarkProcessed));
    s' := ApplyHandling(s', 1, MarkProcessed);
  }
}
