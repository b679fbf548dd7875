/**
 * Offline signing over durable queues: a request is signed, the signature is submitted to the chain,
 * and a finalization is published. A worker settles a delivery only when its listener has finished;
 * it may crash at any step, and the broker delivers again what was not settled.
 */
module OfflineModel {
  import opened Wrappers
  import opened Numerals

  type TxId = string
  type MsgId = nat

  /** What gets signed; `nonce` is written in hexadecimal. */
  datatype Signable = Signable(address: string, nonce: string, call: string)

  datatype TxPayload = TxPayload(signable: Signable, metadata: map<string, string>)

  const INTERNAL_TX_ID := "internalTxId"

  /** Messages on Requests and on Signatures. */
  datatype Message =
    | Request(id: TxId, payload: TxPayload)
    | Signature(id: TxId, payload: TxPayload, signature: string)

  datatype ChainResult = ChainResult(blockHash: string, txIndex: string, txHash: string)

  datatype Finalization = Finalization(id: TxId, address: string, nonce: Option<nat>, result: ChainResult)

  datatype RecordStatus = Signed | Finalized

  /** A row of the submitter's table. `tx` is the message's id; rows have keys of their own. */
  datatype Record = Record(
    tx: TxId, payload: TxPayload, signature: string, address: string, nonce: Option<nat>,
    status: RecordStatus, result: Option<ChainResult>)

  /** Where the listener of a delivery waits. */
  datatype Phase =
    | Validating
    | Signing
    | PublishingSignature(signature: string)
    | Recording
    | Submitting(key: nat, row: Record)
    | PublishingResult(key: nat, row: Record, result: ChainResult)
    | Updating(key: nat, row: Record, result: ChainResult)
    | Accepting

  /** A delivery in progress: the message is still in the broker, unsettled. */
  datatype Work = Work(m: MsgId, body: Message, phase: Phase)

  /**
   * What listeners have done outside: the manager made a signature for message `m`, a signature was
   * stored on its queue, the chain included a submission of message `m`, a finalization was stored.
   */
  datatype Act =
    | Made(m: MsgId, signature: string)
    | Forwarded(id: TxId, signature: string)
    | Submitted(m: MsgId, payload: TxPayload, signature: string)
    | Published(fin: Finalization)

  /**
   * `queue`: messages not yet settled; `dead`: messages rejected or given up by the broker;
   * `updates`: writes of finalized rows that the submitter does not wait for;
   * `started`, `signed`, `log` and `refused`, the deliveries that a listener rejected, are history.
   */
  datatype State = State(
    started: map<TxId, TxPayload>,
    queue: map<MsgId, Message>,
    next: MsgId,
    attempts: map<MsgId, nat>,
    workers: map<nat, Work>,
    dead: map<MsgId, Message>,
    refused: set<MsgId>,
    records: map<nat, Record>,
    updates: set<(nat, Record)>,
    signed: set<(Signable, string)>,
    log: seq<Act>)

  const START := State(map[], map[], 0, map[], map[], map[], {}, map[], {}, {}, [])

  /** The broker delivers a message at most this many times, and then gives it up. */
  const MAX_DELIVERY_ATTEMPTS := 3

  // ---- one listener ----

  /** What a listener's await resolves to. A send may fail although the broker stored the message. */
  datatype Turn =
    | Validated(ok: bool)
    | SignerReplied(signature: Option<string>)
    | SignatureSent(stored: bool, ok: bool)
    | RowCreated(key: Option<nat>)
    | ChainReplied(included: bool, result: Option<ChainResult>)
    | ResultSent(stored: bool, ok: bool)
    | UpdateStarted
    | Accepted

  predicate TurnEnabled(work: Work, x: Turn) {
    match x
    case Validated(_) => work.phase.Validating?
    case SignerReplied(_) => work.phase.Signing? && work.body.Request?
    case SignatureSent(stored, ok) => work.phase.PublishingSignature? && work.body.Request? && (ok ==> stored)
    case RowCreated(_) => work.phase.Recording? && work.body.Signature?
    case ChainReplied(included, result) =>
      work.phase.Submitting? && work.body.Signature? && (result.Some? ==> included)
    case ResultSent(stored, ok) => work.phase.PublishingResult? && work.body.Signature? && (ok ==> stored)
    case UpdateStarted => work.phase.Updating?
    case Accepted => work.phase.Accepting?
  }

  function NewRow(body: Message): Record
    requires body.Signature?
  {
    Record(body.id, body.payload, body.signature, body.payload.signable.address, ParseHex(body.payload.signable.nonce),
           Signed, None)
  }

  function FinalizationOf(row: Record, result: ChainResult): Finalization {
    Finalization(row.tx, row.address, row.nonce, result)
  }

  /** The next await, or None when the listener threw and the delivery is rejected. */
  function NextPhase(work: Work, x: Turn): Option<Phase>
    requires TurnEnabled(work, x) && !x.Accepted?
  {
    match x
    case Validated(ok) => if !ok then None else if work.body.Request? then Some(Signing) else Some(Recording)
    case SignerReplied(signature) => if signature.None? then None else Some(PublishingSignature(signature.value))
    case SignatureSent(_, ok) => if ok then Some(Accepting) else None
    case RowCreated(key) => if key.None? then None else Some(Submitting(key.value, NewRow(work.body)))
    case ChainReplied(_, result) =>
      if result.None? then None else Some(PublishingResult(work.phase.key, work.phase.row, result.value))
    case ResultSent(_, ok) =>
      if ok then Some(Updating(work.phase.key, work.phase.row, work.phase.result)) else None
    case UpdateStarted => Some(Accepting)
  }

  function ActsOf(work: Work, x: Turn): seq<Act>
    requires TurnEnabled(work, x)
  {
    if x.SignerReplied? && x.signature.Some? then [Made(work.m, x.signature.value)]
    else if x.SignatureSent? && x.stored then [Forwarded(work.body.id, work.phase.signature)]
    else if x.ChainReplied? && x.included then [Submitted(work.m, work.phase.row.payload, work.phase.row.signature)]
    else if x.ResultSent? && x.stored then [Published(FinalizationOf(work.phase.row, work.phase.result))]
    else []
  }

  /** The delivery is settled: accepted, or rejected. */
  predicate Settles(work: Work, x: Turn)
    requires TurnEnabled(work, x)
  {
    x.Accepted? || NextPhase(work, x).None?
  }

  function QueueAfter(queue: map<MsgId, Message>, next: MsgId, work: Work, x: Turn): map<MsgId, Message>
    requires TurnEnabled(work, x)
  {
    var kept := if Settles(work, x) then queue - {work.m} else queue;
    if x.SignatureSent? && x.stored then
      kept[next := Signature(work.body.id, work.body.payload, work.phase.signature)]
    else kept
  }

  function WorkersAfter(workers: map<nat, Work>, w: nat, work: Work, x: Turn): map<nat, Work>
    requires TurnEnabled(work, x)
  {
    if Settles(work, x) then workers - {w} else workers[w := work.(phase := NextPhase(work, x).value)]
  }

  function SignedAfter(signed: set<(Signable, string)>, work: Work, x: Turn): set<(Signable, string)> {
    if x.SignerReplied? && x.signature.Some? then signed + {(work.body.payload.signable, x.signature.value)} else signed
  }

  function RecordsAfter(records: map<nat, Record>, work: Work, x: Turn): map<nat, Record>
    requires TurnEnabled(work, x)
  {
    if x.RowCreated? && x.key.Some? then records[x.key.value := NewRow(work.body)] else records
  }

  function UpdatesAfter(updates: set<(nat, Record)>, work: Work, x: Turn): set<(nat, Record)>
    requires TurnEnabled(work, x)
  {
    if x.UpdateStarted? then
      updates + {(work.phase.key, work.phase.row.(status := Finalized, result := Some(work.phase.result)))}
    else updates
  }

  function ApplyTurn(s: State, w: nat, x: Turn): State
    requires w in s.workers && TurnEnabled(s.workers[w], x)
  {
    var work := s.workers[w];
    s.(workers := WorkersAfter(s.workers, w, work, x),
    queue := QueueAfter(s.queue, s.next, work, x),
    next := if x.SignatureSent? && x.stored then s.next + 1 else s.next,
    dead := if Settles(work, x) && !x.Accepted? then s.dead[work.m := work.body] else s.dead,
    refused := if Settles(work, x) && !x.Accepted? then s.refused + {work.m} else s.refused,
    signed := SignedAfter(s.signed, work, x),
    records := RecordsAfter(s.records, work, x),
    updates := UpdatesAfter(s.updates, work, x),
    log := s.log + ActsOf(work, x))
  }

  // ---- all steps ----

  datatype Step =
    | Begin(id: TxId, signable: Signable, metadata: map<string, string>)
    | Deliver(w: nat, m: MsgId)
    | Proceed(w: nat, turn: Turn)
    | Crash(w: nat)
    | GiveUp(m: MsgId)
    | Write(key: nat, row: Record)
    | LoseWrite(key: nat, row: Record)

  ghost predicate Held(s: State, m: MsgId) {
    exists w :: w in s.workers && s.workers[w].m == m
  }

  function AttemptsOf(s: State, m: MsgId): nat {
    if m in s.attempts then s.attempts[m] else 0
  }

  ghost predicate Enabled(s: State, x: Step) {
    match x
    case Begin(id, _, _) => id !in s.started
    case Deliver(w, m) => w !in s.workers && m in s.queue && !Held(s, m) && AttemptsOf(s, m) < MAX_DELIVERY_ATTEMPTS
    case Proceed(w, turn) => w in s.workers && TurnEnabled(s.workers[w], turn)
    case Crash(w) => w in s.workers
    case GiveUp(m) => m in s.queue && !Held(s, m) && AttemptsOf(s, m) >= MAX_DELIVERY_ATTEMPTS
    case Write(key, row) => (key, row) in s.updates
    case LoseWrite(key, row) => (key, row) in s.updates
  }

  /** `beginTransaction`: a fresh id goes into the metadata and names the request. */
  function ApplyBegin(s: State, id: TxId, signable: Signable, metadata: map<string, string>): State {
    var payload := TxPayload(signable, metadata[INTERNAL_TX_ID := id]);
    s.(started := s.started[id := payload], queue := s.queue[s.next := Request(id, payload)], next := s.next + 1)
  }

  ghost function Apply(s: State, x: Step): State
    requires Enabled(s, x)
  {
    match x
    case Begin(id, signable, metadata) => ApplyBegin(s, id, signable, metadata)
    case Deliver(w, m) =>
      s.(workers := s.workers[w := Work(m, s.queue[m], Validating)], attempts := s.attempts[m := AttemptsOf(s, m) + 1])
    case Proceed(w, turn) => ApplyTurn(s, w, turn)
    case Crash(w) => s.(workers := s.workers - {w})
    case GiveUp(m) => s.(queue := s.queue - {m}, dead := s.dead[m := s.queue[m]])
    case Write(key, row) =>
      s.(records := if key in s.records then s.records[key := row] else s.records, updates := s.updates - {(key, row)})
    case LoseWrite(key, row) => s.(updates := s.updates - {(key, row)})
  }

  datatype Run = Run(states: seq<State>, steps: seq<Step>)

  ghost predicate IsRun(r: Run) {
    && |r.states| == |r.steps| + 1
    && r.states[0] == START
    && forall i :: 0 <= i < |r.steps| ==>
                     Enabled(r.states[i], r.steps[i]) && r.states[i + 1] == Apply(r.states[i], r.steps[i])
  }
}
