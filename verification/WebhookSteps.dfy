/** The step relation of the webhook protocol: one step per code segment between two awaits. */
module WebhookSteps {
  import opened Payloads
  import opened Wrappers
  import opened WebhookState

  const HTTP_OK := 200

  // ---- sending attempts (sendHandshake, sendNotification, retry) ----

  /** Steps of one attempt. The `...Fails` steps are storage or library errors. */
  datatype Move =
    | Read | ReadFails
    | Draw(secret: string) | DrawFails
    | Load | LoadFails
    | Answer(response: Response)
    | Settle | SettleFails
    | Retry | RetryFails
    | Reschedule

  /** Update of the stored item: nothing, its final status, or the `triesLeft` written by `retry`. */
  datatype Change = Keep | Assign(outcome: Outcome) | Charge(left: int)

  /** What one step of an attempt does; `next` is None when the attempt is over. */
  datatype Effect = Effect(
    next: Option<Phase>,
    change: Change,
    timer: bool,
    log: seq<Action>,
    dropped: bool)

  /** On to the next await, with nothing else done. */
  function Goto(phase: Phase): Effect {
    Effect(Some(phase), Keep, false, [], false)
  }

  /** The catch block: `retry` is called with one try less than was read. */
  function Catch(tries: int, log: seq<Action>): Effect {
    Effect(Some(Retrying(tries - 1)), Keep, false, log, false)
  }

  /** A storage error outside the try block: the scheduler logs it and forgets the task. */
  const Drop := Effect(None, Keep, false, [], true)

  predicate MoveEnabled(t: Task, phase: Phase, x: Move) {
    match x
    case Read => phase.Reading?
    case ReadFails => phase.Reading?
    case Draw(_) => phase.Drawing? && t.Handshake?
    case DrawFails => phase.Drawing?
    case Load => phase.Loading? && t.Notify?
    case LoadFails => phase.Loading?
    case Answer(_) => phase.Awaiting?
    case Settle => phase.Settling?
    case SettleFails => phase.Settling?
    case Retry => phase.Retrying?
    case RetryFails => phase.Retrying?
    case Reschedule => phase.Rescheduling?
  }

  function OnRead(s: State, t: Task): Effect {
    match t
    case Handshake(i) =>
      if i !in s.subs then Drop
      else if Expired(s.subs[i], s.now) then Effect(None, Keep, false, [], false)
      else Goto(Drawing(s.subs[i].triesLeft, s.subs[i].url))
    case Notify(n) =>
      if n !in s.notifs then Drop else Goto(Loading(s.notifs[n]))
  }

  /** Sending a notification looks at expiry only, not at the subscription's status. */
  function OnLoad(s: State, n: Id, seen: Notification): Effect {
    if seen.sub !in s.subs || seen.event !in s.events then
      Catch(seen.triesLeft, [])
    else
      var sub, ev := s.subs[seen.sub], s.events[seen.event];
      if Expired(sub, s.now) then Goto(Settling(seen.triesLeft, Orphan))
      else
        Effect(Some(Awaiting(seen.triesLeft, "")), Keep, false,
               [NotificationPosted(n, sub.url, Body(seen.sub, ev.eventType, ev.scope, ev.payload, seen.nonce))], false)
  }

  /** 200, and for a handshake the attempt's own secret echoed in the header. */
  predicate Accepts(t: Task, secret: string, r: Response) {
    r.Response? && r.code == HTTP_OK && (t.Handshake? ==> r.echo == Some(secret))
  }

  function AnswerAction(t: Task, secret: string, r: Response): Action {
    match t
    case Handshake(i) => HandshakeAnswered(i, secret, r)
    case Notify(n) => NotificationAnswered(n, r)
  }

  function OnAnswer(t: Task, tries: int, secret: string, r: Response): Effect {
    var log := [AnswerAction(t, secret, r)];
    if Accepts(t, secret, r) then Effect(Some(Settling(tries, Confirm)), Keep, false, log, false)
    else Catch(tries, log)
  }

  function OnRetry(left: int): Effect {
    Effect(if left == 0 then None else Some(Rescheduling), Charge(left), false, [], false)
  }

  function EffectOf(s: State, t: Task, phase: Phase, x: Move): Effect
    requires MoveEnabled(t, phase, x)
  {
    match x
    case Read => OnRead(s, t)
    case ReadFails => Drop
    case Draw(secret) =>
      Effect(Some(Awaiting(phase.tries, secret)), Keep, false, [HandshakePosted(t.sub, phase.url, secret)], false)
    case DrawFails => Catch(phase.tries, [])
    case Load => OnLoad(s, t.notif, phase.seen)
    case LoadFails => Catch(phase.seen.triesLeft, [])
    case Answer(r) => OnAnswer(t, phase.tries, phase.secret, r)
    case Settle => Effect(None, Assign(phase.outcome), false, [], false)
    case SettleFails => Catch(phase.tries, [])
    case Retry => OnRetry(phase.left)
    case RetryFails => Drop
    case Reschedule => Effect(None, Keep, true, [], false)
  }

  predicate IsPost(act: Action) {
    act.HandshakePosted? || act.NotificationPosted?
  }

  /** The attempt at index `k` goes on, or leaves the list. */
  function Fly(f: Flight, k: nat, eff: Effect): Flight
    requires k < |f.attempts|
  {
    f.(attempts := if eff.next.Some? then f.attempts[k := eff.next.value] else f.attempts[..k] + f.attempts[k + 1..],
    posts := f.posts + (if eff.log != [] && IsPost(eff.log[0]) then 1 else 0),
    failures := f.failures + (if eff.next.Some? && eff.next.value.Retrying? then 1 else 0),
    dropped := f.dropped || eff.dropped)
  }

  function ChangeSub(sub: Subscription, change: Change): Subscription {
    match change
    case Keep => sub
    case Assign(_) => sub.(status := Active)
    case Charge(left) =>
      if left == 0 then sub.(triesLeft := left, status := SubscriptionStatus.Rejected) else sub.(triesLeft := left)
  }

  function ChangeNotif(note: Notification, change: Change): Notification {
    match change
    case Keep => note
    case Assign(outcome) => note.(status := if outcome.Confirm? then Acknowledged else Orphaned)
    case Charge(left) =>
      if left == 0 then note.(triesLeft := left, status := NotificationStatus.Failed) else note.(triesLeft := left)
  }

  function SubsAfter(subs: map<Id, Subscription>, t: Task, change: Change): map<Id, Subscription> {
    if t.Handshake? && t.sub in subs then subs[t.sub := ChangeSub(subs[t.sub], change)] else subs
  }

  function NotifsAfter(notifs: map<Id, Notification>, t: Task, change: Change): map<Id, Notification> {
    if t.Notify? && t.notif in notifs then notifs[t.notif := ChangeNotif(notifs[t.notif], change)] else notifs
  }

  function Perform(s: State, t: Task, k: nat, eff: Effect): (s': State)
    requires k < |FlightOf(s, t).attempts|
    ensures s' == s.(flights := s'.flights, slots := s'.slots, subs := s'.subs, notifs := s'.notifs, log := s'.log)
  {
    s.(flights := s.flights[t := Fly(FlightOf(s, t), k, eff)],
    slots := if eff.timer then Timed(s.slots, t) else s.slots,
    subs := SubsAfter(s.subs, t, eff.change),
    notifs := NotifsAfter(s.notifs, t, eff.change),
    log := s.log + eff.log)
  }

  /** The task is scheduled: a timer is added under its id ... */
  function Timed(slots: map<Task, Slot>, t: Task): map<Task, Slot> {
    slots[t := AddTimer(if t in slots then slots[t] else EmptySlot)]
  }

  /** ... and its first scheduling ends its creation. */
  function Launched(flights: map<Task, Flight>, t: Task): map<Task, Flight> {
    flights[t := (if t in flights then flights[t] else NoFlight).(newborn := false)]
  }

  /** A timer runs out. The callback runs only if the registry let the wrapper delete its id. */
  function Ring(s: State, t: Task, h: nat): (s': State)
    ensures s' == s.(slots := s'.slots, flights := s'.flights)
  {
    var f := FlightOf(s, t);
    s.(slots := s.slots[t := Elapse(SlotOf(s, t), h)],
    flights :=
      if SlotOf(s, t).registered.None? then s.flights
      else s.flights[t := f.(attempts := f.attempts + [Reading], starts := f.starts + 1)])
  }

  // ---- creation of a subscription (createSubscription, submitAndSubscribe) ----

  datatype Signing =
    | StoreSubscription(sub: Id) | StoreSubscriptionFails
    | ScheduleHandshake
    | SetNonce | SetNonceFails

  predicate SigningEnabled(s: State, g: Id, x: Signing) {
    && g in s.signups
    && match x
       case StoreSubscription(sub) => s.signups[g].phase.Storing? && sub !in s.subs
       case StoreSubscriptionFails => s.signups[g].phase.Storing?
       case ScheduleHandshake => s.signups[g].phase.Scheduling?
       case SetNonce => s.signups[g].phase.SettingNonce?
       case SetNonceFails => s.signups[g].phase.SettingNonce?
  }

  function NewSubscription(cfg: Config, g: Id, u: Signup): Subscription {
    Subscription(TransactionUpdate, u.scope, u.url, u.createdAt, cfg.ttl, Inactive, cfg.handshakeTries, 0, g)
  }

  function PutNonce(subs: map<Id, Subscription>, i: Id, nonce: int): map<Id, Subscription> {
    if i in subs then subs[i := subs[i].(nextNonce := nonce)] else subs
  }

  function SignupAfter(u: Signup, x: Signing): Signup
    requires x.ScheduleHandshake? ==> u.phase.Scheduling?
    requires x.SetNonce? ==> u.phase.SettingNonce?
  {
    match x
    case StoreSubscription(sub) => u.(phase := Scheduling(sub))
    case ScheduleHandshake => u.(phase := if u.initial then SettingNonce(u.phase.sub) else Complete(u.phase.sub))
    case SetNonce => u.(phase := Complete(u.phase.sub))
    case _ => u.(phase := Broken)
  }

  function ApplySigning(s: State, g: Id, x: Signing): (s': State)
    requires SigningEnabled(s, g, x)
    ensures s' == s.(signups := s'.signups, subs := s'.subs, flights := s'.flights, slots := s'.slots, txs := s'.txs,
                     log := s'.log)
  {
    var u := s.signups[g];
    s.(signups := s.signups[g := SignupAfter(u, x)],
    subs :=
      if x.StoreSubscription? then s.subs[x.sub := NewSubscription(s.cfg, g, u)]
      else if x.SetNonce? then PutNonce(s.subs, u.phase.sub, 1)
      else s.subs,
    flights :=
      if x.StoreSubscription? then s.flights[Handshake(x.sub) := NoFlight.(newborn := true)]
      else if x.ScheduleHandshake? then Launched(s.flights, Handshake(u.phase.sub))
      else s.flights,
    slots := if x.ScheduleHandshake? then Timed(s.slots, Handshake(u.phase.sub)) else s.slots,
    txs := if x.SetNonce? && u.scope in s.txs then s.txs[u.scope := s.txs[u.scope].(launched := true)] else s.txs,
    log := if x.SetNonce? then s.log + [InitialResponse(u.phase.sub, 0)] else s.log)
  }

  // ---- handling of an event (createEvent, handleTransactionStatusChange, markSubsAsDone) ----

  datatype Handling =
    | Fetch | FetchFails
    | Bump | BumpFails
    | StoreNotification(sub: Id, n: Id) | StoreNotificationFails(sub: Id)
    | ScheduleNotification(sub: Id)
    | MarkProcessed
    | Finish
    | FindDone | FindDoneFails
    | MarkDone(sub: Id) | MarkDoneFails(sub: Id)

  /** All four filters of `findAll` together. */
  predicate Matches(sub: Subscription, scope: Id, now: nat) {
    sub.eventType == TransactionUpdate && sub.scope == scope && sub.status == Active && !Expired(sub, now)
  }

  function Matched(subs: map<Id, Subscription>, scope: Id, now: nat): set<Id> {
    set i | i in subs && Matches(subs[i], scope, now)
  }

  function NoncesOf(subs: map<Id, Subscription>, ids: set<Id>): map<Id, int>
    requires ids <= subs.Keys
  {
    map i | i in ids :: subs[i].nextNonce
  }

  /** `incrementNonces` */
  function BumpNonces(subs: map<Id, Subscription>, ids: set<Id>): map<Id, Subscription> {
    map i | i in subs :: if i in ids then subs[i].(nextNonce := subs[i].nextNonce + 1) else subs[i]
  }

  function PutStatus(subs: map<Id, Subscription>, i: Id, status: SubscriptionStatus): map<Id, Subscription> {
    if i in subs then subs[i := subs[i].(status := status)] else subs
  }

  /** Another event has read a nonce of `i` and not yet bumped it. */
  ghost predicate Overlaps(jobs: map<Id, Job>, e: Id, i: Id) {
    exists e' :: e' in jobs && e' != e && i in jobs[e'].affected && jobs[e'].phase.Bumping?
  }

  /** A later event has read a nonce of `i` already. */
  ghost predicate Overtaken(jobs: map<Id, Job>, e: Id, i: Id) {
    exists e' :: e' in jobs && e < e' && i in jobs[e'].affected
  }

  /** The subscriptions on which a fetch by `e` overlaps another event ... */
  ghost function Overlapping(s: State, e: Id): set<Id>
    requires e in s.jobs
  {
    set i | i in Matched(s.subs, s.jobs[e].tx, s.now) && Overlaps(s.jobs, e, i)
  }

  /** ... or comes after a later one. */
  ghost function Racing(s: State, e: Id): set<Id>
    requires e in s.jobs
  {
    set i | i in Matched(s.subs, s.jobs[e].tx, s.now) && (Overlaps(s.jobs, e, i) || Overtaken(s.jobs, e, i))
  }

  /** Every creation of the job has stored its notification and scheduled it. */
  ghost predicate AllScheduled(s: State, job: Job) {
    forall i :: i in job.creations ==>
                  job.creations[i].Stored? && !FlightOf(s, Notify(job.creations[i].n)).newborn
  }

  ghost predicate HandlingEnabled(s: State, e: Id, x: Handling) {
    && e in s.jobs && e in s.events
    && var job := s.jobs[e];
       match x
       case Fetch => job.phase.Fetching?
       case FetchFails => job.phase.Fetching?
       case Bump => job.phase.Bumping?
       case BumpFails => job.phase.Bumping?
       case StoreNotification(i, n) =>
         i in job.creations && i in job.affected && job.creations[i].Pending? && n !in s.notifs
       case StoreNotificationFails(i) => i in job.creations && job.creations[i].Pending?
       case ScheduleNotification(i) =>
         i in job.creations && job.creations[i].Stored? && FlightOf(s, Notify(job.creations[i].n)).newborn
       case MarkProcessed => job.phase.Creating? && AllScheduled(s, job)
       case Finish => job.phase.Processed?
       case FindDone => job.phase.FindingDone?
       case FindDoneFails => job.phase.FindingDone?
       case MarkDone(i) => job.phase.MarkingDone? && i in job.phase.ids
       case MarkDoneFails(i) => job.phase.MarkingDone? && i in job.phase.ids
  }

  function NewNotification(cfg: Config, e: Id, i: Id, nonce: int): Notification {
    Notification(e, i, nonce, cfg.notificationTries, Unsettled)
  }

  /** The handler of a terminal status finds its transaction in the store. */
  predicate Unsubscribes(s: State, job: Job) {
    Terminal(job.status) && job.tx in s.store && job.tx in s.txs
  }

  /** The unsubscribe callback of the transaction is called. */
  function Unsubscribed(txs: map<Id, Tx>, tx: Id): map<Id, Tx>
    requires tx in txs
  {
    txs[tx := txs[tx].(unsubs := txs[tx].unsubs + 1)]
  }

  predicate Fails(x: Handling) {
    x.FetchFails? || x.BumpFails? || x.StoreNotificationFails? || x.FindDoneFails? || x.MarkDoneFails?
  }

  ghost function JobAfter(s: State, e: Id, x: Handling): Job
    requires HandlingEnabled(s, e, x)
  {
    var job := s.jobs[e];
    match x
    case Fetch =>
      var affected := NoncesOf(s.subs, Matched(s.subs, job.tx, s.now));
      job.(affected := affected, phase := if affected == map[] then Creating else Bumping)
    case Bump => job.(phase := Creating, creations := map i | i in job.affected :: Pending)
    case StoreNotification(i, n) => job.(creations := job.creations[i := Stored(n)])
    case ScheduleNotification(_) => job
    case MarkProcessed => job.(phase := Processed)
    case Finish => job.(phase := if Unsubscribes(s, job) then FindingDone else Closed)
    case FindDone => job.(phase := MarkingDone(Matched(s.subs, job.tx, s.now)))
    case MarkDone(i) => job.(phase := MarkingDone(job.phase.ids - {i}))
    // storage errors
    case FetchFails => job.(phase := Abandoned)
    case BumpFails => job.(phase := Abandoned, affected := map[])
    case StoreNotificationFails(i) =>
      // Promise.all rejects at once; the other creations go on although nobody waits for them
      job.(phase := Abandoned, creations := job.creations[i := Creation.Lost])
    case FindDoneFails => job.(phase := Closed)
    case MarkDoneFails(i) => job.(phase := MarkingDone(job.phase.ids - {i}))
  }

  ghost function ApplyHandling(s: State, e: Id, x: Handling): (s': State)
    requires HandlingEnabled(s, e, x)
    ensures s' == s.(jobs := s'.jobs, subs := s'.subs, notifs := s'.notifs, flights := s'.flights, slots := s'.slots,
                     events := s'.events, store := s'.store, txs := s'.txs, overlapped := s'.overlapped,
                     raced := s'.raced, unbumped := s'.unbumped)
  {
    var job := s.jobs[e];
    s.(jobs := s.jobs[e := JobAfter(s, e, x)],
    subs :=
      if x.Bump? then BumpNonces(s.subs, job.affected.Keys)
      else if x.MarkDone? then PutStatus(s.subs, x.sub, Done)
      else s.subs,
    notifs :=
      if x.StoreNotification? then s.notifs[x.n := NewNotification(s.cfg, e, x.sub, job.affected[x.sub])] else s.notifs,
    flights :=
      if x.StoreNotification? then s.flights[Notify(x.n) := NoFlight.(newborn := true)]
      else if x.ScheduleNotification? then Launched(s.flights, Notify(job.creations[x.sub].n))
      else s.flights,
    slots := if x.ScheduleNotification? then Timed(s.slots, Notify(job.creations[x.sub].n)) else s.slots,
    events := if x.MarkProcessed? then s.events[e := s.events[e].(processed := true)] else s.events,
    store := if x.Finish? && Unsubscribes(s, job) then s.store - {job.tx} else s.store,
    txs := if x.Finish? && Unsubscribes(s, job) then Unsubscribed(s.txs, job.tx) else s.txs,
    overlapped := if x.Fetch? then s.overlapped + Overlapping(s, e) else s.overlapped,
    raced := if x.Fetch? then s.raced + Racing(s, e) else s.raced,
    unbumped := if x.BumpFails? then s.unbumped + job.affected.Keys else s.unbumped)
  }

  // ---- all steps ----

  datatype Step =
    | Tick(ms: nat)
    | Submit(g: Id, url: string)
    | Subscribe(g: Id, scope: Id, url: string)
    | Sign(g: Id, signing: Signing)
    | StatusChange(tx: Id, snap: Snapshot)
    | Handle(e: Id, handling: Handling)
    | Fire(t: Task, h: nat)
    | Go(t: Task, k: nat, move: Move)

  ghost predicate Enabled(s: State, x: Step) {
    match x
    case Tick(_) => true
    case Submit(g, _) => g !in s.signups
    case Subscribe(g, scope, _) => g !in s.signups && scope in s.txs
    case Sign(g, signing) => SigningEnabled(s, g, signing)
    case StatusChange(tx, snap) => tx in s.txs && s.txs[tx].launched && s.txs[tx].unsubs == 0 && Payloads.Complete(snap)
    case Handle(e, handling) => HandlingEnabled(s, e, handling)
    case Fire(t, h) => h in SlotOf(s, t).timers
    case Go(t, k, move) =>
      k < |FlightOf(s, t).attempts| && MoveEnabled(t, FlightOf(s, t).attempts[k], move)
  }

  /** `addListener` and the call of `createSubscription`, down to the first await. */
  function ApplySubmit(s: State, g: Id, url: string): State {
    var tx := s.currentTx + 1;
    s.(currentTx := tx,
    store := s.store + {tx},
    txs := s.txs[tx := Tx(false, 0, [])],
    signups := s.signups[g := Signup(tx, url, s.now, true, Storing)])
  }

  /**
   * The synchronous part of `handleTransactionStatusChange`, down to the first await. Status and
   * payload are read from the same snapshot. A snapshot that is not complete makes the callback
   * throw before it has done anything, so it gives no step.
   */
  function ApplyStatusChange(s: State, tx: Id, snap: Snapshot): State
    requires tx in s.txs && Payloads.Complete(snap)
  {
    var e := s.currentEvent + 1;
    s.(currentEvent := e,
    events := s.events[e := Event(TransactionUpdate, tx, PayloadOf(snap).value, false)],
    jobs := s.jobs[e := Job(tx, snap.status, Fetching, map[], map[])],
    txs := s.txs[tx := s.txs[tx].(emitted := s.txs[tx].emitted + [snap.status])])
  }

  ghost function Apply(s: State, x: Step): State
    requires Enabled(s, x)
  {
    match x
    case Tick(ms) => s.(now := s.now + ms)
    case Submit(g, url) => ApplySubmit(s, g, url)
    case Subscribe(g, scope, url) => s.(signups := s.signups[g := Signup(scope, url, s.now, false, Storing)])
    case Sign(g, signing) => ApplySigning(s, g, signing)
    case StatusChange(tx, snap) => ApplyStatusChange(s, tx, snap)
    case Handle(e, handling) => ApplyHandling(s, e, handling)
    case Fire(t, h) => Ring(s, t, h)
    case Go(t, k, move) => Perform(s, t, k, EffectOf(s, t, FlightOf(s, t).attempts[k], move))
  }

  /** A run: `states[0]` is initial and each `steps[i]` leads from `states[i]` to `states[i + 1]`. */
  datatype Run = Run(states: seq<State>, steps: seq<Step>)

  ghost predicate IsRun(r: Run) {
    && |r.states| == |r.steps| + 1
    && Init(r.states[0])
    && forall i :: 0 <= i < |r.steps| ==>
                     Enabled(r.states[i], r.steps[i]) && r.states[i + 1] == Apply(r.states[i], r.steps[i])
  }
}
