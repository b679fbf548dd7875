/**
 * The process that runs the services: an event loop that holds every suspended continuation and
 * resumes one at a time. Each of its methods is one step of the protocol, so every state that the
 * server can get into satisfies the protocol's invariant.
 */
module WebhookServer {
  import opened Payloads
  import opened WebhookState
  import opened WebhookSteps
  import opened WebhookDelivery
  import opened WebhookFanout
  import opened WebhookTransactions
  import opened WebhookEndings
  import opened WebhookHandshakes
  import opened WebhookNonces
  import opened WebhookSignups
  import opened WebhookTheorems
  import opened WebhookServices

  class Server {
    const cfg: Config
    const schedule: ScheduleService
    const subscriptions: SubscriptionsService
    const notifications: NotificationsService
    const eventsService: EventsService
    const transactions: TransactionsService

    // suspended continuations
    var flights: map<Task, Flight>
    var jobs: map<Id, Job>
    var signups: map<Id, Signup>

    // the outside: the clock, the SDK's transactions, and what went over the wire
    var now: nat
    var txs: map<Id, Tx>
    var log: seq<Action>
    ghost var overlapped: set<Id>
    ghost var raced: set<Id>
    ghost var unbumped: set<Id>

    ghost function Abs(): State
      reads this, schedule, subscriptions, notifications, eventsService, transactions
    {
      State(cfg, now, schedule.slots, flights, subscriptions.subs, notifications.notifs, eventsService.events,
            eventsService.currentId, jobs, signups, txs, transactions.store, transactions.currentId, log, overlapped,
            raced, unbumped)
    }

    /** The services are wired to each other. */
    ghost predicate Wired()
      reads this, subscriptions, notifications
    {
      && subscriptions.cfg == cfg && subscriptions.schedule == schedule && subscriptions.Valid()
      && notifications.cfg == cfg && notifications.schedule == schedule && notifications.Valid()
      && notifications.subscriptions == subscriptions && notifications.eventsService == eventsService
      && transactions.eventsService == eventsService
    }

    ghost predicate Valid()
      reads this, schedule, subscriptions, notifications, eventsService, transactions
    {
      Wired() && Inv(Abs())
    }

    constructor (cfg: Config, now: nat)
      requires cfg.Valid()
      ensures Valid() && Init(Abs())
    {
      var schedule := new ScheduleService();
      var subscriptions := new SubscriptionsService(cfg, schedule);
      var eventsService := new EventsService();
      this.cfg, this.now, this.schedule := cfg, now, schedule;
      this.subscriptions, this.eventsService := subscriptions, eventsService;
      notifications := new NotificationsService(cfg, schedule, subscriptions, eventsService);
      transactions := new TransactionsService(eventsService);
      flights, jobs, signups, txs, log := map[], map[], map[], map[], [];
      overlapped, raced, unbumped := {}, {}, {};
      new;
      InvInit(Abs());
    }

    /** What each method below amounts to: it took the step it is named after. */
    twostate predicate Took(x: Step)
      reads this, schedule, subscriptions, notifications, eventsService, transactions
    {
      Enabled(old(Abs()), x) && Abs() == Apply(old(Abs()), x)
    }

    method Tick(ms: nat)
      requires Valid()
      modifies this
      ensures Valid() && Took(Step.Tick(ms))
    {
      hide Inv;
      ghost var s := Abs();
      now := now + ms;
      InvKept(s, Step.Tick(ms));
    }

    /** `submitAndSubscribe`, down to its first await; `g` names the new continuation. */
    method Submit(g: Id, url: string)
      requires Valid() && g !in signups
      modifies this, transactions
      ensures Valid() && Took(Step.Submit(g, url))
    {
      hide Inv;
      ghost var s := Abs();
      var tx := transactions.AddListener();
      txs := txs[tx := Tx(false, 0, [])];
      signups := signups[g := Signup(tx, url, now, true, Storing)];
      InvKept(s, Step.Submit(g, url));
    }

    /** Another caller of `createSubscription`. */
    method Subscribe(g: Id, scope: Id, url: string)
      requires Valid() && g !in signups && scope in txs
      modifies this
      ensures Valid() && Took(Step.Subscribe(g, scope, url))
    {
      hide Inv;
      ghost var s := Abs();
      signups := signups[g := Signup(scope, url, now, false, Storing)];
      InvKept(s, Step.Subscribe(g, scope, url));
    }

    method StoreSubscription(g: Id) returns (sub: Id)
      requires Valid() && g in signups && signups[g].phase.Storing?
      modifies this, subscriptions
      ensures Valid() && Took(Sign(g, Signing.StoreSubscription(sub)))
    {
      hide Inv;
      ghost var s := Abs();
      sub := subscriptions.Create(g, signups[g]);
      flights := flights[Handshake(sub) := NoFlight.(newborn := true)];
      signups := signups[g := signups[g].(phase := Scheduling(sub))];
      InvKept(s, Sign(g, Signing.StoreSubscription(sub)));
    }

    method ScheduleHandshake(g: Id)
      requires Valid() && g in signups && signups[g].phase.Scheduling?
      modifies this, schedule
      ensures Valid() && Took(Sign(g, Signing.ScheduleHandshake))
    {
      hide Inv;
      ghost var s := Abs();
      var u := signups[g];
      subscriptions.ScheduleSendHandshake(u.phase.sub);
      flights := Launched(flights, Handshake(u.phase.sub));
      signups := signups[g := u.(phase := if u.initial then SettingNonce(u.phase.sub) else Complete(u.phase.sub))];
      InvKept(s, Sign(g, Signing.ScheduleHandshake));
    }

    method SetNonce(g: Id)
      requires Valid() && g in signups && signups[g].phase.SettingNonce?
      modifies this, subscriptions
      ensures Valid() && Took(Sign(g, Signing.SetNonce))
    {
      hide Inv, Apply, Enabled, PutNonce;
      ghost var s := Abs();
      SetNonceIs(s, g);
      ghost var after := Apply(s, Sign(g, Signing.SetNonce));
      var u := signups[g];
      subscriptions.UpdateNonce(u.phase.sub, 1);
      signups := signups[g := u.(phase := Complete(u.phase.sub))];
      txs := if u.scope in txs then txs[u.scope := txs[u.scope].(launched := true)] else txs;
      log := log + [InitialResponse(u.phase.sub, 0)];
      assert subscriptions.subs == after.subs && txs == after.txs;
      InvKept(s, Sign(g, Signing.SetNonce));
    }

    /** A storage error while a subscription is created. */
    method SigningFails(g: Id, x: Signing)
      requires Valid() && (x.StoreSubscriptionFails? || x.SetNonceFails?) && SigningEnabled(Abs(), g, x)
      modifies this
      ensures Valid() && Took(Sign(g, x))
    {
      hide Inv;
      ghost var s := Abs();
      signups := signups[g := signups[g].(phase := Broken)];
      InvKept(s, Sign(g, x));
    }

    /** The SDK calls back with a new status. */
    method StatusChange(tx: Id, snap: Snapshot)
      requires Valid() && Enabled(Abs(), Step.StatusChange(tx, snap))
      modifies this, eventsService
      ensures Valid() && Took(Step.StatusChange(tx, snap))
    {
      hide Inv, PayloadOf;
      ghost var s := Abs();
      var e, job := transactions.HandleStatusChange(tx, snap);
      jobs := jobs[e := job];
      txs := txs[tx := txs[tx].(emitted := txs[tx].emitted + [snap.status])];
      InvKept(s, Step.StatusChange(tx, snap));
    }

    /** `createEventNotifications`: the matching subscriptions and the nonces they are at. */
    method Fetch(e: Id)
      requires Valid() && HandlingEnabled(Abs(), e, Handling.Fetch)
      modifies this
      ensures Valid() && Took(Handle(e, Handling.Fetch))
    {
      hide Inv, Apply, Enabled, Overlapping, Racing, HandlingEnabled, Matched;
      ghost var s := Abs();
      FetchIs(s, e);
      var found := subscriptions.FindMatching(jobs[e].tx, now);
      var affected := NoncesOf(subscriptions.subs, found);
      overlapped, raced := overlapped + Overlapping(s, e), raced + Racing(s, e);
      jobs := jobs[e := jobs[e].(affected := affected, phase := if affected == map[] then Creating else Bumping)];
      InvKept(s, Handle(e, Handling.Fetch));
    }

    method Bump(e: Id)
      requires Valid() && HandlingEnabled(Abs(), e, Handling.Bump)
      modifies this, subscriptions
      ensures Valid() && Took(Handle(e, Handling.Bump))
    {
      hide Inv;
      ghost var s := Abs();
      var job := jobs[e];
      subscriptions.BatchBumpNonce(job.affected.Keys);
      jobs := jobs[e := job.(phase := Creating, creations := map i | i in job.affected :: Pending)];
      InvKept(s, Handle(e, Handling.Bump));
    }

    method StoreNotification(e: Id, sub: Id) returns (n: Id)
      requires Valid() && e in jobs && e in eventsService.events
      requires sub in jobs[e].creations && sub in jobs[e].affected && jobs[e].creations[sub].Pending?
      modifies this, notifications
      ensures Valid() && Took(Handle(e, Handling.StoreNotification(sub, n)))
    {
      hide Inv;
      ghost var s := Abs();
      n := notifications.Create(e, sub, jobs[e].affected[sub]);
      flights := flights[Notify(n) := NoFlight.(newborn := true)];
      jobs := jobs[e := jobs[e].(creations := jobs[e].creations[sub := Stored(n)])];
      InvKept(s, Handle(e, Handling.StoreNotification(sub, n)));
    }

    method ScheduleNotification(e: Id, sub: Id)
      requires Valid() && HandlingEnabled(Abs(), e, Handling.ScheduleNotification(sub))
      modifies this, schedule
      ensures Valid() && Took(Handle(e, Handling.ScheduleNotification(sub)))
    {
      hide Inv;
      ghost var s := Abs();
      var n := jobs[e].creations[sub].n;
      notifications.ScheduleSendNotification(n);
      flights := Launched(flights, Notify(n));
      assert jobs == jobs[e := jobs[e]];
      InvKept(s, Handle(e, Handling.ScheduleNotification(sub)));
    }

    method MarkProcessed(e: Id)
      requires Valid() && HandlingEnabled(Abs(), e, Handling.MarkProcessed)
      modifies this, eventsService
      ensures Valid() && Took(Handle(e, Handling.MarkProcessed))
    {
      hide Inv;
      ghost var s := Abs();
      eventsService.MarkEventAsProcessed(e);
      jobs := jobs[e := jobs[e].(phase := Processed)];
      InvKept(s, Handle(e, Handling.MarkProcessed));
    }

    /** The rest of `handleTransactionStatusChange`: the terminal test and the clean-up of the store. */
    method Finish(e: Id)
      requires Valid() && HandlingEnabled(Abs(), e, Handling.Finish)
      modifies this, transactions`store
      ensures Valid() && Took(Handle(e, Handling.Finish))
    {
      hide Inv, Apply, Enabled, HandlingEnabled, Terminal;
      ghost var s := Abs();
      FinishIs(s, e);
      var job := jobs[e];
      var unsubscribed := transactions.Finish(job.tx, job.status);
      ghost var after := Finished(s, e, job.tx, unsubscribed);
      if unsubscribed {
        txs := txs[job.tx := txs[job.tx].(unsubs := txs[job.tx].unsubs + 1)];
        jobs := jobs[e := job.(phase := FindingDone)];
        assert txs == after.txs && jobs == after.jobs && transactions.store == after.store;
      } else {
        jobs := jobs[e := job.(phase := Closed)];
        assert txs == after.txs && jobs == after.jobs && transactions.store == after.store;
      }
      hide Finished;
      InvKept(s, Handle(e, Handling.Finish));
    }

    /** `markSubsAsDone`: the subscriptions to mark. */
    method FindDone(e: Id)
      requires Valid() && HandlingEnabled(Abs(), e, Handling.FindDone)
      modifies this
      ensures Valid() && Took(Handle(e, Handling.FindDone))
    {
      hide Inv;
      ghost var s := Abs();
      var found := subscriptions.FindMatching(jobs[e].tx, now);
      jobs := jobs[e := jobs[e].(phase := MarkingDone(found))];
      InvKept(s, Handle(e, Handling.FindDone));
    }

    method MarkDone(e: Id, sub: Id)
      requires Valid() && HandlingEnabled(Abs(), e, Handling.MarkDone(sub))
      modifies this, subscriptions
      ensures Valid() && Took(Handle(e, Handling.MarkDone(sub)))
    {
      hide Inv;
      ghost var s := Abs();
      subscriptions.UpdateStatus(sub, Done);
      jobs := jobs[e := jobs[e].(phase := MarkingDone(jobs[e].phase.ids - {sub}))];
      InvKept(s, Handle(e, Handling.MarkDone(sub)));
    }

    /** A storage error while an event is handled. */
    method HandlingFails(e: Id, x: Handling)
      requires Valid() && Fails(x) && HandlingEnabled(Abs(), e, x)
      modifies this
      ensures Valid() && Took(Handle(e, x))
    {
      hide Inv, Apply, AllScheduled;
      ghost var s := Abs();
      FailureIs(s, e, x);
      var job := jobs[e];
      match x {
        case FetchFails => job := job.(phase := Abandoned);
        case BumpFails => job := job.(phase := Abandoned, affected := map[]);
        case StoreNotificationFails(i) =>
          job := job.(phase := Abandoned, creations := job.creations[i := Creation.Lost]);
        case FindDoneFails => job := job.(phase := Closed);
        case MarkDoneFails(i) => job := job.(phase := MarkingDone(job.phase.ids - {i}));
      }
      jobs := jobs[e := job];
      unbumped := if x.BumpFails? then unbumped + s.jobs[e].affected.Keys else unbumped;
      InvKept(s, Handle(e, x));
    }

    /** A timer runs out. */
    method Fire(t: Task, h: nat)
      requires Valid() && h in SlotOf(Abs(), t).timers
      modifies this, schedule
      ensures Valid() && Took(Step.Fire(t, h))
    {
      hide Inv, Apply, Enabled, Elapse;
      ghost var s := Abs();
      FireIs(s, t, h);
      var run := schedule.Elapsed(t, h);
      if run {
        var f := if t in flights then flights[t] else NoFlight;
        flights := flights[t := f.(attempts := f.attempts + [Reading], starts := f.starts + 1)];
        assert flights == Ring(s, t, h).flights;
      } else {
        assert flights == Ring(s, t, h).flights;
      }
      assert schedule.slots == Ring(s, t, h).slots;
      hide Ring;
      InvKept(s, Step.Fire(t, h));
    }

    /** Attempt `k` of the task is resumed by whatever it waited for. */
    method Resume(t: Task, k: nat, x: Move)
      requires Valid() && Enabled(Abs(), Go(t, k, x))
      modifies this, schedule, subscriptions, notifications
      ensures Valid() && Took(Go(t, k, x))
    {
      hide Inv, Apply, Enabled, EffectOf, MoveEnabled, Fly, ChangeSub, ChangeNotif, Timed;
      ghost var s := Abs();
      ResumeIs(s, t, k, x);
      var phase := flights[t].attempts[k];
      var eff: Effect;
      match t {
        case Handshake(i) => eff := subscriptions.ResumeHandshake(i, phase, x, now, s);
        case Notify(n) => eff := notifications.ResumeNotification(n, phase, x, now, s);
      }
      flights := flights[t := Fly(flights[t], k, eff)];
      log := log + eff.log;
      assert schedule.slots == Perform(s, t, k, eff).slots;
      assert subscriptions.subs == Perform(s, t, k, eff).subs && notifications.notifs == Perform(s, t, k, eff).notifs;
      assert flights == Perform(s, t, k, eff).flights && log == Perform(s, t, k, eff).log;
      hide Perform;
      InvKept(s, Go(t, k, x));
    }
  }

  // ---- the steps, written out ----

  lemma SetNonceIs(s: State, g: Id)
    requires SigningEnabled(s, g, Signing.SetNonce)
    ensures Enabled(s, Sign(g, Signing.SetNonce))
    ensures var u := s.signups[g];
      Apply(s, Sign(g, Signing.SetNonce)) ==
      s.(signups := s.signups[g := u.(phase := Complete(u.phase.sub))],
      subs := PutNonce(s.subs, u.phase.sub, 1),
      txs := if u.scope in s.txs then s.txs[u.scope := s.txs[u.scope].(launched := true)] else s.txs,
      log := s.log + [InitialResponse(u.phase.sub, 0)])
  {
  }

  lemma FetchIs(s: State, e: Id)
    requires HandlingEnabled(s, e, Fetch)
    ensures e in s.jobs && Enabled(s, Handle(e, Fetch)) && Matched(s.subs, s.jobs[e].tx, s.now) <= s.subs.Keys
    ensures var affected := NoncesOf(s.subs, Matched(s.subs, s.jobs[e].tx, s.now));
      Apply(s, Handle(e, Fetch)) ==
      s.(overlapped := s.overlapped + Overlapping(s, e),
      raced := s.raced + Racing(s, e),
      jobs := s.jobs[e := s.jobs[e].(affected := affected, phase := if affected == map[] then Creating else Bumping)])
  {
  }

  function Finished(s: State, e: Id, tx: Id, ends: bool): (s': State)
    requires e in s.jobs && tx in s.txs
    ensures s' == s.(store := s'.store, jobs := s'.jobs, txs := s'.txs)
  {
    s.(store := if ends then s.store - {tx} else s.store,
    jobs := s.jobs[e := s.jobs[e].(phase := if ends then FindingDone else Closed)],
    txs := if ends then s.txs[tx := s.txs[tx].(unsubs := s.txs[tx].unsubs + 1)] else s.txs)
  }

  /** A handler's transaction is known, so only the store decides whether it is unsubscribed. */
  lemma FinishIs(s: State, e: Id)
    requires Inv(s) && HandlingEnabled(s, e, Finish)
    ensures e in s.jobs && s.jobs[e].tx in s.txs && Enabled(s, Handle(e, Finish))
    ensures Apply(s, Handle(e, Finish)) ==
            Finished(s, e, s.jobs[e].tx, Terminal(s.jobs[e].status) && s.jobs[e].tx in s.store)
  {
    hide DeliveryOk, FanoutOk, SignupsOk, ScopesOk, StatusesOk, HandshakesOk, NoncesOk, DoneOk, OrphansOk, Ended;
  }

  /** A storage error changes nothing but what its handler does next. */
  lemma FailureIs(s: State, e: Id, x: Handling)
    requires Fails(x) && HandlingEnabled(s, e, x)
    ensures Enabled(s, Handle(e, x))
    ensures Apply(s, Handle(e, x)) ==
            s.(jobs := s.jobs[e := JobAfter(s, e, x)],
            unbumped := if x.BumpFails? then s.unbumped + s.jobs[e].affected.Keys else s.unbumped)
  {
    hide JobAfter, AllScheduled;
  }

  lemma FireIs(s: State, t: Task, h: nat)
    requires h in SlotOf(s, t).timers
    ensures Enabled(s, Fire(t, h)) && Apply(s, Fire(t, h)) == Ring(s, t, h)
  {
  }

  /** A handshake about to be settled was accepted: only notifications are orphaned. */
  lemma ResumeIs(s: State, t: Task, k: nat, x: Move)
    requires Inv(s) && Enabled(s, Go(t, k, x))
    ensures t in s.flights && k < |s.flights[t].attempts| && MoveEnabled(t, s.flights[t].attempts[k], x)
    ensures t.Handshake? && s.flights[t].attempts[k].Settling? ==> s.flights[t].attempts[k].outcome.Confirm?
    ensures Apply(s, Go(t, k, x)) == Perform(s, t, k, EffectOf(s, t, s.flights[t].attempts[k], x))
  {
    hide FanoutOk, SignupsOk, ScopesOk, StoreOk, StatusesOk, HandshakesOk, NoncesOk, DoneOk, OrphansOk, EffectOf,
      Perform;
    assert ViewOk(ViewOf(s, t));
  }
}
