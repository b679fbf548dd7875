/**
 * The services as objects. Each method is one code segment between two awaits; what an `await`
 * suspends is handed back to the event loop, the class Server, as data.
 */
module WebhookServices {
  import opened Payloads
  import opened Wrappers
  import opened WebhookState
  import opened WebhookSteps

  /** The scheduler registry and the event loop's timers, by task id. */
  class ScheduleService {
    var slots: map<Task, Slot>

    constructor ()
      ensures slots == map[]
    {
      slots := map[];
    }

    method AddTimeout(t: Task)
      modifies this
      ensures slots == Timed(old(slots), t)
    {
      var c := if t in slots then slots[t] else EmptySlot;
      var handle := c.next;
      c := c.(timers := c.timers + {handle}, next := handle + 1);
      if c.registered.Some? {
        c := c.(errors := c.errors + 1);
      } else {
        c := c.(registered := Some(handle));
      }
      slots := slots[t := c];
    }

    method DeleteTimeout(t: Task)
      modifies this
      ensures slots == old(slots)[t := DeleteTimer(if t in old(slots) then old(slots)[t] else EmptySlot)]
    {
      var c := if t in slots then slots[t] else EmptySlot;
      if c.registered.Some? {
        c := c.(timers := c.timers - {c.registered.value}, registered := None);
      } else {
        c := c.(errors := c.errors + 1);
      }
      slots := slots[t := c];
    }

    /** The wrapper around a timeout's callback; `run` tells whether it gets to call it. */
    method Elapsed(t: Task, h: nat) returns (run: bool)
      requires t in slots
      modifies this
      ensures slots == old(slots)[t := Elapse(old(slots)[t], h)]
      ensures run <==> old(slots)[t].registered.Some?
    {
      run := slots[t].registered.Some?;
      slots := slots[t := slots[t].(timers := slots[t].timers - {h})];
      DeleteTimeout(t);
    }
  }

  /** The optional filters of `findAll`. */
  datatype Filters = Filters(
    status: Option<SubscriptionStatus>, scope: Option<Id>, eventType: Option<EventType>, excludeExpired: bool)
  {
    predicate Passes(sub: Subscription, now: nat) {
      && (status.None? || status.value == sub.status)
      && (scope.None? || scope.value == sub.scope)
      && (eventType.None? || eventType.value == sub.eventType)
      && (!excludeExpired || !Expired(sub, now))
    }
  }

  class SubscriptionsService {
    const cfg: Config
    const schedule: ScheduleService
    var subs: map<Id, Subscription>
    var currentId: nat

    ghost predicate Valid()
      reads this
    {
      forall i :: i in subs ==> i <= currentId
    }

    constructor (cfg: Config, schedule: ScheduleService)
      ensures this.cfg == cfg && this.schedule == schedule && subs == map[] && Valid()
    {
      this.cfg, this.schedule, subs, currentId := cfg, schedule, map[], 0;
    }

    method FindAll(f: Filters, now: nat) returns (found: set<Id>)
      ensures forall i :: i in found <==>
                            && i in subs
                            && (f.status.None? || f.status == Some(subs[i].status))
                            && (f.scope.None? || f.scope == Some(subs[i].scope))
                            && (f.eventType.None? || f.eventType == Some(subs[i].eventType))
                            && (f.excludeExpired ==> now < subs[i].createdAt + subs[i].ttl)
    {
      var rest := subs.Keys;
      found := {};
      while rest != {}
        invariant rest <= subs.Keys
        invariant found == set i | i in subs && i !in rest && f.Passes(subs[i], now)
        decreases |rest|
      {
        var i :| i in rest;
        rest := rest - {i};
        if f.Passes(subs[i], now) {
          found := found + {i};
        }
      }
    }

    /** The call that events make: Active, unexpired, of the event's type and scope. */
    method FindMatching(scope: Id, now: nat) returns (found: set<Id>)
      ensures found == Matched(subs, scope, now)
    {
      found := FindAll(Filters(Some(Active), Some(scope), Some(TransactionUpdate), true), now);
    }

    method Create(g: Id, u: Signup) returns (id: Id)
      requires Valid()
      modifies this
      ensures Valid() && id !in old(subs)
      ensures subs == old(subs)[id := NewSubscription(cfg, g, u)]
    {
      currentId := currentId + 1;
      id := currentId;
      subs := subs[id := NewSubscription(cfg, g, u)];
    }

    method ScheduleSendHandshake(id: Id)
      modifies schedule
      ensures schedule.slots == Timed(old(schedule.slots), Handshake(id))
    {
      schedule.AddTimeout(Handshake(id));
    }

    method UpdateNonce(id: Id, nonce: int)
      requires Valid()
      modifies this
      ensures Valid() && subs == PutNonce(old(subs), id, nonce)
    {
      if id in subs {
        subs := subs[id := subs[id].(nextNonce := nonce)];
      }
    }

    method UpdateStatus(id: Id, status: SubscriptionStatus)
      requires Valid()
      modifies this
      ensures Valid() && subs == PutStatus(old(subs), id, status)
    {
      if id in subs {
        subs := subs[id := subs[id].(status := status)];
      }
    }

    method BatchBumpNonce(ids: set<Id>)
      requires Valid()
      modifies this
      ensures Valid() && subs == BumpNonces(old(subs), ids)
    {
      var rest := ids;
      while rest != {}
        invariant rest <= ids && Valid()
        invariant subs == BumpNonces(old(subs), ids - rest)
        decreases |rest|
      {
        var i :| i in rest;
        rest := rest - {i};
        if i in subs {
          subs := subs[i := subs[i].(nextNonce := subs[i].nextNonce + 1)];
        }
      }
      assert ids - rest == ids;
    }

    /** `retry`: one try less, and Rejected when none is left. */
    method Retry(id: Id, left: int) returns (eff: Effect)
      requires Valid()
      modifies this
      ensures Valid() && eff == OnRetry(left)
      ensures subs == SubsAfter(old(subs), Handshake(id), Charge(left))
    {
      if id in subs {
        var sub := subs[id].(triesLeft := left);
        if left == 0 {
          sub := sub.(status := SubscriptionStatus.Rejected);
        }
        subs := subs[id := sub];
      }
      eff := OnRetry(left);
    }

    /** `sendHandshake`, resumed where it waits. `s` is the state it is resumed in. */
    method ResumeHandshake(id: Id, phase: Phase, x: Move, now: nat, ghost s: State) returns (eff: Effect)
      requires Valid() && s.subs == subs && s.now == now && MoveEnabled(Handshake(id), phase, x)
      requires phase.Settling? ==> phase.outcome.Confirm?
      modifies this, schedule
      ensures Valid() && eff == EffectOf(s, Handshake(id), phase, x)
      ensures subs == SubsAfter(old(subs), Handshake(id), eff.change)
      ensures schedule.slots == if eff.timer then Timed(old(schedule.slots), Handshake(id)) else old(schedule.slots)
    {
      match x
      case Read =>
        if id !in subs {
          eff := Drop;
        } else if Expired(subs[id], now) {
          eff := Effect(None, Keep, false, [], false);
        } else {
          eff := Goto(Drawing(subs[id].triesLeft, subs[id].url));
        }
      case Draw(secret) =>
        var post := HandshakePosted(id, phase.url, secret);
        eff := Effect(Some(Awaiting(phase.tries, secret)), Keep, false, [post], false);
      case Answer(r) =>
        var log := [HandshakeAnswered(id, phase.secret, r)];
        if r.Response? && r.code == HTTP_OK && r.echo == Some(phase.secret) {
          eff := Effect(Some(Settling(phase.tries, Confirm)), Keep, false, log, false);
        } else {
          eff := Catch(phase.tries, log);
        }
      case Settle =>
        UpdateStatus(id, Active);
        eff := Effect(None, Assign(phase.outcome), false, [], false);
      case Retry =>
        eff := Retry(id, phase.left);
      case Reschedule =>
        ScheduleSendHandshake(id);
        eff := Effect(None, Keep, true, [], false);
      case ReadFails => eff := Drop;
      case RetryFails => eff := Drop;
      case DrawFails => eff := Catch(phase.tries, []);
      case SettleFails => eff := Catch(phase.tries, []);
      case LoadFails => eff := Catch(phase.seen.triesLeft, []);
    }
  }

  class EventsService {
    var events: map<Id, Event>
    var currentId: nat

    constructor ()
      ensures events == map[] && currentId == 0
    {
      events, currentId := map[], 0;
    }

    /** The synchronous part of `createEvent`. */
    method CreateEvent(eventType: EventType, scope: Id, payload: Payload) returns (id: Id)
      modifies this
      ensures id == currentId == old(currentId) + 1
      ensures events == old(events)[id := Event(eventType, scope, payload, false)]
    {
      currentId := currentId + 1;
      id := currentId;
      events := events[id := Event(eventType, scope, payload, false)];
    }

    method MarkEventAsProcessed(id: Id)
      requires id in events
      modifies this`events
      ensures events == old(events)[id := old(events)[id].(processed := true)]
    {
      events := events[id := events[id].(processed := true)];
    }
  }

  class NotificationsService {
    const cfg: Config
    const schedule: ScheduleService
    const subscriptions: SubscriptionsService
    const eventsService: EventsService
    var notifs: map<Id, Notification>
    var currentId: nat

    ghost predicate Valid()
      reads this
    {
      forall n :: n in notifs ==> n <= currentId
    }

    constructor (cfg: Config, schedule: ScheduleService, subscriptions: SubscriptionsService,
      eventsService: EventsService)
      ensures this.cfg == cfg && this.schedule == schedule && this.subscriptions == subscriptions
      ensures this.eventsService == eventsService && notifs == map[] && Valid()
    {
      this.cfg, this.schedule, this.subscriptions, this.eventsService := cfg, schedule, subscriptions, eventsService;
      notifs, currentId := map[], 0;
    }

    /** The repository call of one element of `createNotifications`. */
    method Create(e: Id, sub: Id, nonce: int) returns (n: Id)
      requires Valid()
      modifies this
      ensures Valid() && n !in old(notifs)
      ensures notifs == old(notifs)[n := NewNotification(cfg, e, sub, nonce)]
    {
      currentId := currentId + 1;
      n := currentId;
      notifs := notifs[n := NewNotification(cfg, e, sub, nonce)];
    }

    method ScheduleSendNotification(n: Id)
      modifies schedule
      ensures schedule.slots == Timed(old(schedule.slots), Notify(n))
    {
      schedule.AddTimeout(Notify(n));
    }

    method UpdateStatus(n: Id, status: NotificationStatus)
      requires Valid()
      modifies this
      ensures Valid()
      ensures notifs == if n in old(notifs) then old(notifs)[n := old(notifs)[n].(status := status)] else old(notifs)
    {
      if n in notifs {
        notifs := notifs[n := notifs[n].(status := status)];
      }
    }

    /** `retry`: one try less, and Failed when none is left. */
    method Retry(n: Id, left: int) returns (eff: Effect)
      requires Valid()
      modifies this
      ensures Valid() && eff == OnRetry(left)
      ensures notifs == NotifsAfter(old(notifs), Notify(n), Charge(left))
    {
      if n in notifs {
        var note := notifs[n].(triesLeft := left);
        if left == 0 {
          note := note.(status := NotificationStatus.Failed);
        }
        notifs := notifs[n := note];
      }
      eff := OnRetry(left);
    }

    /** Subscription and event are loaded, the subscription's expiry is tested, and the POST goes out. */
    method Deliver(n: Id, seen: Notification, now: nat, ghost s: State) returns (eff: Effect)
      requires s.subs == subscriptions.subs && s.events == eventsService.events && s.now == now
      ensures eff == OnLoad(s, n, seen)
    {
      if seen.sub !in subscriptions.subs || seen.event !in eventsService.events {
        eff := Catch(seen.triesLeft, []);
        return;
      }
      var sub, ev := subscriptions.subs[seen.sub], eventsService.events[seen.event];
      if Expired(sub, now) {
        eff := Goto(Settling(seen.triesLeft, Orphan));
      } else {
        var body := Body(seen.sub, ev.eventType, ev.scope, ev.payload, seen.nonce);
        eff := Effect(Some(Awaiting(seen.triesLeft, "")), Keep, false, [NotificationPosted(n, sub.url, body)], false);
      }
    }

    /** `sendNotification`, resumed where it waits. `s` is the state it is resumed in. */
    method ResumeNotification(n: Id, phase: Phase, x: Move, now: nat, ghost s: State) returns (eff: Effect)
      requires Valid() && s.notifs == notifs && s.subs == subscriptions.subs && s.events == eventsService.events
               && s.now == now
      requires MoveEnabled(Notify(n), phase, x)
      modifies this, schedule
      ensures Valid() && eff == EffectOf(s, Notify(n), phase, x)
      ensures notifs == NotifsAfter(old(notifs), Notify(n), eff.change)
      ensures schedule.slots == if eff.timer then Timed(old(schedule.slots), Notify(n)) else old(schedule.slots)
    {
      match x
      case Read =>
        if n !in notifs {
          eff := Drop;
        } else {
          eff := Goto(Loading(notifs[n]));
        }
      case Load =>
        eff := Deliver(n, phase.seen, now, s);
      case Answer(r) =>
        var log := [NotificationAnswered(n, r)];
        if r.Response? && r.code == HTTP_OK {
          eff := Effect(Some(Settling(phase.tries, Confirm)), Keep, false, log, false);
        } else {
          eff := Catch(phase.tries, log);
        }
      case Settle =>
        UpdateStatus(n, if phase.outcome.Confirm? then Acknowledged else Orphaned);
        eff := Effect(None, Assign(phase.outcome), false, [], false);
      case Retry =>
        eff := Retry(n, phase.left);
      case Reschedule =>
        ScheduleSendNotification(n);
        eff := Effect(None, Keep, true, [], false);
      case ReadFails => eff := Drop;
      case RetryFails => eff := Drop;
      case DrawFails => eff := Catch(phase.tries, []);
      case SettleFails => eff := Catch(phase.tries, []);
      case LoadFails => eff := Catch(phase.seen.triesLeft, []);
    }
  }

  class TransactionsService {
    const eventsService: EventsService
    var store: set<Id>
    var currentId: nat

    constructor (eventsService: EventsService)
      ensures this.eventsService == eventsService && store == {} && currentId == 0
    {
      this.eventsService, store, currentId := eventsService, {}, 0;
    }

    method AddListener() returns (id: Id)
      modifies this
      ensures id == currentId == old(currentId) + 1 && store == old(store) + {id}
    {
      currentId := currentId + 1;
      id := currentId;
      store := store + {id};
    }

    /** The status is saved first; the payload is assembled from the same object before any await. */
    method HandleStatusChange(tx: Id, snap: Snapshot) returns (e: Id, job: Job)
      requires Payloads.Complete(snap)
      modifies eventsService
      ensures e == eventsService.currentId == old(eventsService.currentId) + 1
      ensures eventsService.events ==
              old(eventsService.events)[e := Event(TransactionUpdate, tx, PayloadOf(snap).value, false)]
      ensures job == Job(tx, snap.status, Fetching, map[], map[])
    {
      var status := snap.status;
      var payload := AssemblePayload(snap);
      e := eventsService.CreateEvent(TransactionUpdate, tx, payload.value);
      job := Job(tx, status, Fetching, map[], map[]);
    }

    /** After the event: a terminal status unsubscribes and forgets the transaction, if it is still there. */
    method Finish(tx: Id, status: TransactionStatus) returns (unsubscribed: bool)
      modifies this`store
      ensures unsubscribed <==> Terminal(status) && tx in old(store)
      ensures store == if unsubscribed then old(store) - {tx} else old(store)
    {
      unsubscribed := false;
      if Terminal(status) {
        if tx in store {
          unsubscribed := true;
          store := store - {tx};
        }
      }
    }
  }
}
