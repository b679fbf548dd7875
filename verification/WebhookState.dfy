/**
 * State of the webhook delivery protocol. Every `await` of the services ends a step, so the
 * continuations that wait on one are part of the state: sending attempts, the handling of each
 * event, and the creation of each subscription.
 */
module WebhookState {
  import opened Payloads
  import opened Wrappers
  import Numerals

  type Id = nat

  // ---- stored records ----

  datatype SubscriptionStatus = Inactive | Active | Rejected | Done
  datatype NotificationStatus = Unsettled | Acknowledged | Failed | Orphaned
  datatype EventType = TransactionUpdate

  /** `scope` is the transaction id (Numerals shows that rendering it loses nothing). */
  datatype Subscription = Subscription(
    eventType: EventType,
    scope: Id,
    url: string,
    createdAt: nat,
    ttl: nat,
    status: SubscriptionStatus,
    triesLeft: int,
    nextNonce: int,
    origin: Id)

  datatype Notification = Notification(
    event: Id,
    sub: Id,
    nonce: int,
    triesLeft: int,
    status: NotificationStatus)

  datatype Event = Event(eventType: EventType, scope: Id, payload: Payload, processed: bool)

  predicate Expired(sub: Subscription, now: nat) {
    sub.createdAt + sub.ttl <= now
  }

  // ---- timers ----

  /** A scheduled task, named `sendSubscriptionHandshake_${id}` or `sendNotification_${id}`. */
  datatype Task = Handshake(sub: Id) | Notify(notif: Id)

  /** `getTimeoutId` of the two services. */
  function TimeoutId(t: Task): string {
    match t
    case Handshake(i) => "sendSubscriptionHandshake_" + Numerals.Decimal(i)
    case Notify(n) => "sendNotification_" + Numerals.Decimal(n)
  }

  /** Two tasks never share a timer id, so that the registry can be kept per task. */
  lemma TimeoutIdInjective(t: Task, t': Task)
    requires TimeoutId(t) == TimeoutId(t')
    ensures t == t'
  {
    var p, q := "sendSubscriptionHandshake_", "sendNotification_";
    assert TimeoutId(t)[4] == TimeoutId(t')[4];
    if t.Handshake? {
      assert TimeoutId(t)[|p|..] == Numerals.Decimal(t.sub) && TimeoutId(t')[|p|..] == Numerals.Decimal(t'.sub);
      Numerals.DecimalInjective(t.sub, t'.sub);
    } else {
      assert TimeoutId(t)[|q|..] == Numerals.Decimal(t.notif) && TimeoutId(t')[|q|..] == Numerals.Decimal(t'.notif);
      Numerals.DecimalInjective(t.notif, t'.notif);
    }
  }

  /**
   * The timers of one task id: `timers` are the event loop's pending timeouts, `registered` is the
   * handle that the scheduler registry holds under the id. The registry refuses an id it already
   * holds, and refuses to delete one it does not hold; `errors` counts refusals.
   */
  datatype Slot = Slot(timers: set<nat>, registered: Option<nat>, next: nat, errors: nat)

  const EmptySlot := Slot({}, None, 0, 0)

  /** `addTimeout`: the timer is set first and registered after that. */
  function AddTimer(c: Slot): Slot {
    var c' := c.(timers := c.timers + {c.next}, next := c.next + 1);
    if c.registered.Some? then c'.(errors := c.errors + 1) else c'.(registered := Some(c.next))
  }

  /** `deleteTimeout`, which also clears the registered timer. */
  function DeleteTimer(c: Slot): Slot {
    if c.registered.Some? then c.(timers := c.timers - {c.registered.value}, registered := None)
    else c.(errors := c.errors + 1)
  }

  /** Timer `h` runs out: its wrapper deletes the id, so that the id can be used again. */
  function Elapse(c: Slot, h: nat): Slot {
    DeleteTimer(c.(timers := c.timers - {h}))
  }

  // ---- sending attempts ----

  datatype Response = NoResponse | Response(code: int, echo: Option<string>)

  datatype Outcome = Confirm | Orphan

  /** Where a running `sendHandshake` or `sendNotification` waits. */
  datatype Phase =
    | Reading                                   // for the stored item
    | Drawing(tries: int, url: string)          // for a random secret
    | Loading(seen: Notification)               // for the subscription and the event
    | Awaiting(tries: int, secret: string)      // for the answer to the POST
    | Settling(tries: int, outcome: Outcome)    // for the status update
    | Retrying(left: int)                       // for the update made by `retry`
    | Rescheduling                              // about to call `addTimeout` again

  /**
   * The continuations of one task: `newborn` while it is stored but not yet scheduled, and the running
   * attempts. The counters are history: attempts started, POSTs made, and catch blocks entered; `dropped`
   * tells that a storage error outside any try block ended an attempt, which nothing retries.
   */
  datatype Flight = Flight(
    newborn: bool, attempts: seq<Phase>, starts: nat, posts: nat, failures: nat, dropped: bool)

  const NoFlight := Flight(false, [], 0, 0, 0, false)

  // ---- handling of one status change, from event to clean-up ----

  datatype JobPhase =
    | Fetching
    | Bumping
    | Creating
    | Abandoned
    | Processed
    | FindingDone
    | MarkingDone(ids: set<Id>)
    | Closed

  /** One `notificationsRepo.create` of an event, by subscription. */
  datatype Creation = Pending | Stored(n: Id) | Lost

  /** `affected` holds the nonces read for the matched subscriptions. */
  datatype Job = Job(
    tx: Id,
    status: TransactionStatus,
    phase: JobPhase,
    affected: map<Id, int>,
    creations: map<Id, Creation>)

  // ---- creation of one subscription ----

  datatype SignupPhase = Storing | Scheduling(sub: Id) | SettingNonce(sub: Id) | Complete(sub: Id) | Broken

  /** `initial`: made by `submitAndSubscribe`, which answers the request itself with nonce 0. */
  datatype Signup = Signup(scope: Id, url: string, createdAt: nat, initial: bool, phase: SignupPhase)

  /** What the SDK holds of a transaction: calls of its unsubscribe callback and the statuses reported. */
  datatype Tx = Tx(launched: bool, unsubs: nat, emitted: seq<TransactionStatus>)

  // ---- history of observable actions ----

  datatype Body = Body(sub: Id, eventType: EventType, scope: Id, payload: Payload, nonce: int)

  datatype Action =
    | HandshakePosted(sub: Id, url: string, secret: string)
    | HandshakeAnswered(sub: Id, secret: string, response: Response)
    | NotificationPosted(notif: Id, url: string, body: Body)
    | NotificationAnswered(notif: Id, response: Response)
    | InitialResponse(sub: Id, nonce: int)

  /** `maxTries` of the two services; the stop test is `triesLeft === 0`, so both are positive. */
  datatype Config = Config(ttl: nat, handshakeTries: nat, notificationTries: nat) {
    predicate Valid() {
      handshakeTries >= 1 && notificationTries >= 1
    }
  }

  /**
   * The last three are history, per subscription: `overlapped`, an event read its nonce while another
   * had read it and not yet bumped it; `raced`, that happened or a later event had read it before;
   * `unbumped`, the bump of an event that had read it failed.
   */
  datatype State = State(
    cfg: Config,
    now: nat,
    slots: map<Task, Slot>,
    flights: map<Task, Flight>,
    subs: map<Id, Subscription>,
    notifs: map<Id, Notification>,
    events: map<Id, Event>,
    currentEvent: nat,
    jobs: map<Id, Job>,
    signups: map<Id, Signup>,
    txs: map<Id, Tx>,
    store: set<Id>,
    currentTx: nat,
    log: seq<Action>,
    overlapped: set<Id>,
    raced: set<Id>,
    unbumped: set<Id>)

  ghost predicate Init(s: State) {
    && s.cfg.Valid()
    && s.slots == map[] && s.flights == map[] && s.subs == map[] && s.notifs == map[]
    && s.events == map[] && s.currentEvent == 0 && s.jobs == map[] && s.signups == map[]
    && s.txs == map[] && s.store == {} && s.currentTx == 0
    && s.log == [] && s.overlapped == {} && s.raced == {} && s.unbumped == {}
  }

  // ---- views of a task ----

  function SlotOf(s: State, t: Task): Slot {
    if t in s.slots then s.slots[t] else EmptySlot
  }

  function FlightOf(s: State, t: Task): Flight {
    if t in s.flights then s.flights[t] else NoFlight
  }

  datatype Standing = Absent | Waiting | Won | Lost | Void

  function SubStanding(status: SubscriptionStatus): Standing {
    match status
    case Inactive => Waiting
    case Active => Won
    case Done => Won
    case Rejected => Standing.Lost
  }

  function NotifStanding(status: NotificationStatus): Standing {
    match status
    case Unsettled => Waiting
    case Acknowledged => Won
    case Failed => Standing.Lost
    case Orphaned => Void
  }

  function StandingOf(s: State, t: Task): Standing {
    match t
    case Handshake(i) => if i in s.subs then SubStanding(s.subs[i].status) else Absent
    case Notify(n) => if n in s.notifs then NotifStanding(s.notifs[n].status) else Absent
  }

  function TriesOf(s: State, t: Task): int {
    match t
    case Handshake(i) => if i in s.subs then s.subs[i].triesLeft else 0
    case Notify(n) => if n in s.notifs then s.notifs[n].triesLeft else 0
  }

  function MaxTries(cfg: Config, t: Task): nat {
    match t
    case Handshake(_) => cfg.handshakeTries
    case Notify(_) => cfg.notificationTries
  }

  /** The subscription a handshake is for has expired: the only way its sending may just stop. */
  predicate Lapsed(s: State, t: Task) {
    t.Handshake? && t.sub in s.subs && Expired(s.subs[t.sub], s.now)
  }
}
