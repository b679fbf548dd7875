/**
 * The offline services as objects over a broker. The class Node resumes one suspended listener at a
 * time; each of its methods is one step of the pipeline.
 */
module OfflineServices {
  import opened Wrappers
  import opened Numerals
  import opened OfflineModel
  import opened OfflineProofs

  /** The durable queues, as ArtemisService uses them: manual settlement, one unsettled delivery per receiver. */
  class Broker {
    var queue: map<MsgId, Message>
    var next: MsgId
    var attempts: map<MsgId, nat>
    var dead: map<MsgId, Message>
    ghost var refused: set<MsgId>

    constructor ()
      ensures queue == map[] && next == 0 && attempts == map[] && dead == map[] && refused == {}
    {
      queue, next, attempts, dead := map[], 0, map[], map[];
      refused := {};
    }

    method SendMessage(msg: Message) returns (id: MsgId)
      modifies this`queue, this`next
      ensures id == old(next) && next == old(next) + 1 && queue == old(queue)[id := msg]
    {
      id := next;
      queue := queue[id := msg];
      next := next + 1;
    }

    method Deliver(m: MsgId) returns (body: Message)
      requires m in queue
      modifies this`attempts
      ensures body == queue[m]
      ensures attempts == old(attempts)[m := (if m in old(attempts) then old(attempts)[m] else 0) + 1]
    {
      body := queue[m];
      attempts := attempts[m := (if m in attempts then attempts[m] else 0) + 1];
    }

    method Accept(m: MsgId)
      modifies this`queue
      ensures queue == old(queue) - {m}
    {
      queue := queue - {m};
    }

    method Reject(m: MsgId, body: Message)
      modifies this`queue, this`dead, this`refused
      ensures queue == old(queue) - {m} && dead == old(dead)[m := body] && refused == old(refused) + {m}
    {
      queue := queue - {m};
      dead := dead[m := body];
      refused := refused + {m};
    }

    /** The broker's own decision, without a listener. */
    method GiveUp(m: MsgId)
      requires m in queue
      modifies this`queue, this`dead
      ensures queue == old(queue) - {m} && dead == old(dead)[m := old(queue)[m]]
    {
      dead := dead[m := queue[m]];
      queue := queue - {m};
    }
  }

  class OfflineStarterService {
    const broker: Broker
    var started: map<TxId, TxPayload>

    constructor (broker: Broker)
      ensures this.broker == broker && started == map[]
    {
      this.broker, started := broker, map[];
    }

    /** `beginTransaction`, with the generated id as a parameter. The receipt names the delivery. */
    method BeginTransaction(id: TxId, signable: Signable, metadata: map<string, string>)
      returns (deliveryId: MsgId, payload: TxPayload)
      modifies this, broker`queue, broker`next
      ensures payload == TxPayload(signable, metadata[INTERNAL_TX_ID := id])
      ensures started == old(started)[id := payload]
      ensures broker.queue == old(broker.queue)[deliveryId := Request(id, payload)]
      ensures deliveryId == old(broker.next) && broker.next == old(broker.next) + 1
    {
      payload := TxPayload(signable, metadata[INTERNAL_TX_ID := id]);
      deliveryId := broker.SendMessage(Request(id, payload));
      started := started[id := payload];
    }
  }

  /** What the outside has seen, in order. */
  class Journal {
    var log: seq<Act>

    constructor ()
      ensures log == []
    {
      log := [];
    }

    method Note(act: Act)
      modifies this
      ensures log == old(log) + [act]
    {
      log := log + [act];
    }
  }

  class OfflineSignerService {
    const broker: Broker
    const journal: Journal
    var signed: set<(Signable, string)>

    constructor (broker: Broker, journal: Journal)
      ensures this.broker == broker && this.journal == journal && signed == {}
    {
      this.broker, this.journal, signed := broker, journal, {};
    }

    /** `autoSign`, resumed by the signing manager's reply or by the outcome of its send. */
    method AutoSign(work: Work, x: Turn) returns (next: Option<Phase>)
      requires TurnEnabled(work, x) && (x.SignerReplied? || x.SignatureSent?)
      modifies this, broker`queue, broker`next, journal
      ensures next == NextPhase(work, x)
      ensures signed == SignedAfter(old(signed), work, x)
      ensures broker.queue == Sent(old(broker.queue), old(broker.next), work, x)
      ensures broker.next == old(broker.next) + if x.SignatureSent? && x.stored then 1 else 0
      ensures journal.log == old(journal.log) + ActsOf(work, x)
    {
      next := None;
      match x {
        case SignerReplied(signature) =>
          if signature.Some? {
            signed := signed + {(work.body.payload.signable, signature.value)};
            journal.Note(Made(work.m, signature.value));
            next := Some(PublishingSignature(signature.value));
          }
        case SignatureSent(stored, ok) =>
          if stored {
            var _ := broker.SendMessage(Signature(work.body.id, work.body.payload, work.phase.signature));
            journal.Note(Forwarded(work.body.id, work.phase.signature));
          }
          if ok {
            next := Some(Accepting);
          }
      }
    }
  }

  class OfflineSubmitterService {
    const journal: Journal
    var records: map<nat, Record>
    var updates: set<(nat, Record)>

    constructor (journal: Journal)
      ensures this.journal == journal && records == map[] && updates == {}
    {
      this.journal, records, updates := journal, map[], {};
    }

    predicate Mine(x: Turn) {
      x.RowCreated? || x.ChainReplied? || x.ResultSent? || x.UpdateStarted?
    }

    /** `submit`: create the row, submit to the chain, publish the result, start the update of the row. */
    method Submit(work: Work, x: Turn) returns (next: Option<Phase>)
      requires TurnEnabled(work, x) && Mine(x)
      modifies this, journal
      ensures next == NextPhase(work, x)
      ensures records == RecordsAfter(old(records), work, x)
      ensures updates == UpdatesAfter(old(updates), work, x)
      ensures journal.log == old(journal.log) + ActsOf(work, x)
    {
      next := None;
      match x {
        case RowCreated(key) =>
          if key.Some? {
            var signable := work.body.payload.signable;
            var row := Record(work.body.id, work.body.payload, work.body.signature, signable.address,
                              ParseHex(signable.nonce), Signed, None);
            records := records[key.value := row];
            next := Some(Submitting(key.value, row));
          }
        case ChainReplied(included, result) =>
          if included {
            journal.Note(Submitted(work.m, work.phase.row.payload, work.phase.row.signature));
          }
          if result.Some? {
            next := Some(PublishingResult(work.phase.key, work.phase.row, result.value));
          }
        case ResultSent(stored, ok) =>
          if stored {
            var row := work.phase.row;
            journal.Note(Published(Finalization(row.tx, row.address, row.nonce, work.phase.result)));
          }
          if ok {
            next := Some(Updating(work.phase.key, work.phase.row, work.phase.result));
          }
        case UpdateStarted =>
          var row := work.phase.row.(status := Finalized, result := Some(work.phase.result));
          updates := updates + {(work.phase.key, row)};
          next := Some(Accepting);
      }
    }

    /** The write that nobody waits for reaches the table, unless its row is gone or the write fails. */
    method Write(key: nat, row: Record, fails: bool)
      requires (key, row) in updates
      modifies this`records, this`updates
      ensures records == if key in old(records) && !fails then old(records)[key := row] else old(records)
      ensures updates == old(updates) - {(key, row)}
    {
      if key in records && !fails {
        records := records[key := row];
      }
      updates := updates - {(key, row)};
    }
  }

  class Node {
    const broker: Broker
    const starter: OfflineStarterService
    const signer: OfflineSignerService
    const submitter: OfflineSubmitterService
    const journal: Journal
    var workers: map<nat, Work>

    ghost function Abs(): State
      reads this, broker, starter, signer, submitter, journal
    {
      State(starter.started, broker.queue, broker.next, broker.attempts, workers, broker.dead, broker.refused,
            submitter.records, submitter.updates, signer.signed, journal.log)
    }

    ghost predicate Wired() {
      starter.broker == broker && signer.broker == broker && signer.journal == journal && submitter.journal == journal
    }

    ghost predicate Valid()
      reads this, broker, starter, signer, submitter, journal
    {
      Wired() && Inv(Abs())
    }

    twostate predicate Took(x: Step)
      reads this, broker, starter, signer, submitter, journal
    {
      Enabled(old(Abs()), x) && Abs() == Apply(old(Abs()), x)
    }

    constructor ()
      ensures Valid() && Abs() == START
    {
      var broker := new Broker();
      this.broker := broker;
      starter := new OfflineStarterService(broker);
      var journal := new Journal();
      this.journal := journal;
      signer := new OfflineSignerService(broker, journal);
      submitter := new OfflineSubmitterService(journal);
      workers := map[];
      new;
      assert IsRun(Run([START], []));
      RunInv(Run([START], []), 0);
    }

    method Begin(id: TxId, signable: Signable, metadata: map<string, string>) returns (deliveryId: MsgId)
      requires Valid() && id !in starter.started
      modifies broker, starter
      ensures Valid() && Took(Step.Begin(id, signable, metadata))
      ensures deliveryId in broker.queue && broker.queue[deliveryId].id == id
    {
      hide Inv;
      ghost var s := Abs();
      var payload;
      deliveryId, payload := starter.BeginTransaction(id, signable, metadata);
      InvKept(s, Step.Begin(id, signable, metadata));
    }

    /** A receiver with free credit gets a message that no other receiver holds. */
    method Deliver(w: nat, m: MsgId)
      requires Valid() && Enabled(Abs(), Step.Deliver(w, m))
      modifies this, broker`attempts
      ensures Valid() && Took(Step.Deliver(w, m))
    {
      hide Inv;
      ghost var s := Abs();
      var body := broker.Deliver(m);
      workers := workers[w := Work(m, body, Validating)];
      InvKept(s, Step.Deliver(w, m));
    }

    /** Validation, and the listener itself: what it has done when it waits again, or throws. */
    method Listen(work: Work, x: Turn) returns (next: Option<Phase>)
      requires Wired() && TurnEnabled(work, x) && !x.Accepted?
      modifies broker`queue, broker`next, signer, submitter, journal
      ensures next == NextPhase(work, x)
      ensures signer.signed == SignedAfter(old(signer.signed), work, x)
      ensures submitter.records == RecordsAfter(old(submitter.records), work, x)
      ensures submitter.updates == UpdatesAfter(old(submitter.updates), work, x)
      ensures journal.log == old(journal.log) + ActsOf(work, x)
      ensures broker.queue == Sent(old(broker.queue), old(broker.next), work, x)
      ensures broker.next == old(broker.next) + if x.SignatureSent? && x.stored then 1 else 0
    {
      hide ParseHex;
      assert old(journal.log) + [] == old(journal.log);
      if x.Validated? {
        next := if !x.ok then None else if work.body.Request? then Some(Signing) else Some(Recording);
      } else if x.SignerReplied? || x.SignatureSent? {
        next := signer.AutoSign(work, x);
      } else {
        next := submitter.Submit(work, x);
      }
    }

    /** The listener returned: its delivery is accepted. */
    method Accept(w: nat)
      requires Valid() && w in workers && TurnEnabled(workers[w], Accepted)
      modifies this, broker`queue
      ensures Valid() && Took(Step.Proceed(w, Accepted))
    {
      hide Inv, TurnEnabled, ApplyTurn;
      ghost var s := Abs();
      AcceptedIs(s, w);
      broker.Accept(workers[w].m);
      workers := workers - {w};
      InvKept(s, Step.Proceed(w, Accepted));
    }

    /** The listener waits again, or threw and its delivery is rejected. */
    method Settle(w: nat, work: Work, next: Option<Phase>)
      modifies this, broker`queue, broker`dead, broker`refused
      ensures if next.Some? then
                workers == old(workers)[w := work.(phase := next.value)] && broker.queue == old(broker.queue)
                && broker.dead == old(broker.dead) && broker.refused == old(broker.refused)
              else
                workers == old(workers) - {w} && broker.queue == old(broker.queue) - {work.m}
                && broker.dead == old(broker.dead)[work.m := work.body]
                && broker.refused == old(broker.refused) + {work.m}
    {
      if next.Some? {
        workers := workers[w := work.(phase := next.value)];
      } else {
        broker.Reject(work.m, work.body);
        workers := workers - {w};
      }
    }

    /** The message handler of `registerListener`: settles the delivery when the listener is through. */
    method Proceed(w: nat, x: Turn)
      requires Valid() && w in workers && TurnEnabled(workers[w], x)
      modifies this, broker`queue, broker`next, broker`dead, broker`refused, signer, submitter, journal
      ensures Valid() && Took(Step.Proceed(w, x))
    {
      hide Inv, TurnEnabled, NextPhase, ActsOf, SignedAfter, RecordsAfter, UpdatesAfter, Sent, ApplyTurn;
      if x.Accepted? {
        Accept(w);
      } else {
        ghost var s := Abs();
        var work := workers[w];
        ListenedIs(s, w, x);
        var next := Listen(work, x);
        Settle(w, work, next);
        InvKept(s, Step.Proceed(w, x));
      }
    }

    /** The process of receiver `w` dies; its delivery was not settled, so the broker still has it. */
    method Crash(w: nat)
      requires Valid() && w in workers
      modifies this
      ensures Valid() && Took(Step.Crash(w))
    {
      hide Inv;
      ghost var s := Abs();
      workers := workers - {w};
      InvKept(s, Step.Crash(w));
    }

    /** The broker's own limit on delivery attempts. */
    method GiveUp(m: MsgId)
      requires Valid() && Enabled(Abs(), Step.GiveUp(m))
      modifies broker`queue, broker`dead
      ensures Valid() && Took(Step.GiveUp(m))
    {
      hide Inv;
      ghost var s := Abs();
      broker.GiveUp(m);
      InvKept(s, Step.GiveUp(m));
    }

    method Write(key: nat, row: Record, fails: bool)
      requires Valid() && (key, row) in submitter.updates
      modifies submitter
      ensures Valid() && Took(if fails then Step.LoseWrite(key, row) else Step.Write(key, row))
    {
      hide Inv;
      ghost var s := Abs();
      submitter.Write(key, row, fails);
      InvKept(s, if fails then Step.LoseWrite(key, row) else Step.Write(key, row));
    }
  }

  /** The queue with what the turn stored on it. */
  function Sent(queue: map<MsgId, Message>, next: MsgId, work: Work, x: Turn): map<MsgId, Message>
    requires TurnEnabled(work, x)
  {
    if x.SignatureSent? && x.stored then queue[next := Signature(work.body.id, work.body.payload, work.phase.signature)]
    else queue
  }

  lemma AcceptedIs(s: State, w: nat)
    requires w in s.workers && TurnEnabled(s.workers[w], Accepted)
    ensures ApplyTurn(s, w, Accepted) == s.(queue := s.queue - {s.workers[w].m}, workers := s.workers - {w})
  {
  }

  /** A listener's turn: its effects, and then its next wait or the rejection of its delivery. */
  lemma ListenedIs(s: State, w: nat, x: Turn)
    requires Inv(s) && w in s.workers && TurnEnabled(s.workers[w], x) && !x.Accepted?
    ensures var work := s.workers[w];
      var did := s.(next := s.next + if x.SignatureSent? && x.stored then 1 else 0,
                    queue := Sent(s.queue, s.next, work, x),
                    signed := SignedAfter(s.signed, work, x),
                    records := RecordsAfter(s.records, work, x),
                    updates := UpdatesAfter(s.updates, work, x),
                    log := s.log + ActsOf(work, x));
      ApplyTurn(s, w, x) ==
      match NextPhase(work, x)
      case Some(phase) => did.(workers := s.workers[w := work.(phase := phase)])
      case None =>
        did.(workers := s.workers - {w}, queue := did.queue - {work.m}, dead := s.dead[work.m := work.body],
             refused := s.refused + {work.m})
  {
    OldMessage(s, w);
    QueueSent(s.queue, s.next, s.workers[w], x);
    hide Inv, ActsOf, NextPhase, SignedAfter, RecordsAfter, UpdatesAfter, TurnEnabled, QueueAfter, Sent;
  }

  lemma QueueSent(queue: map<MsgId, Message>, next: MsgId, work: Work, x: Turn)
    requires TurnEnabled(work, x) && !x.Accepted? && work.m < next
    ensures QueueAfter(queue, next, work, x) ==
            if NextPhase(work, x).None? then Sent(queue, next, work, x) - {work.m} else Sent(queue, next, work, x)
  {
    hide NextPhase;
  }

  lemma OldMessage(s: State, w: nat)
    requires Inv(s) && w in s.workers
    ensures s.workers[w].m < s.next
  {
    assert WorkOk(s, s.workers[w]);
  }
}
