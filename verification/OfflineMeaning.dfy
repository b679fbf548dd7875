/**
 * What each turn of a listener does, spelled out, and where the data in rows and finalizations come
 * from: the request that was begun, and the chain's own reply.
 */
module OfflineMeaning {
  import opened Wrappers
  import opened Numerals
  import opened OfflineModel
  import opened OfflineProofs

  // ---- turns ----

  /** The await failed: the listener throws, or validation found errors. */
  predicate Failing(x: Turn) {
    match x
    case Validated(ok) => !ok
    case SignerReplied(signature) => signature.None?
    case SignatureSent(_, ok) => !ok
    case RowCreated(key) => key.None?
    case ChainReplied(_, result) => result.None?
    case ResultSent(_, ok) => !ok
    case UpdateStarted => false
    case Accepted => false
  }

  /** A delivery is rejected exactly if a turn of its listener fails, accepted when it is through, else kept. */
  lemma TurnsSettle(r: Run, k: nat, w: nat, x: Turn)
    requires IsRun(r) && k < |r.steps| && r.steps[k] == Proceed(w, x)
    ensures w in r.states[k].workers
    ensures var s, s', work := r.states[k], r.states[k + 1], r.states[k].workers[w];
      if Failing(x) then
        && w !in s'.workers && work.m !in s'.queue
        && work.m in s'.dead && s'.dead[work.m] == work.body && work.m in s'.refused
      else if x.Accepted? then
        w !in s'.workers && work.m !in s'.queue && s'.dead == s.dead && s'.refused == s.refused
      else
        && work.m in s'.queue && s'.queue[work.m] == work.body && s'.dead == s.dead && s'.refused == s.refused
        && w in s'.workers && s'.workers[w].m == work.m && s'.workers[w].body == work.body
  {
    RunInv(r, k);
    hide QueueOk, LogOk, RowsOk, NothingLost;
    assert WorkOk(r.states[k], r.states[k].workers[w]) && r.states[k].workers[w].m in r.states[k].queue;
    OldEnough(r, k, w);
    hide ActsOf, RecordsAfter, UpdatesAfter, SignedAfter, WorkersOk, WorkOk;
  }

  lemma OldEnough(r: Run, k: nat, w: nat)
    requires IsRun(r) && k < |r.states| && w in r.states[k].workers
    ensures r.states[k].workers[w].m < r.states[k].next
  {
    RunInv(r, k);
    hide IsRun;
    assert WorkOk(r.states[k], r.states[k].workers[w]);
  }

  /** The order of a listener's awaits: signer, then queue; row, then chain, then queue, then update. */
  lemma TurnsFollow(r: Run, k: nat, w: nat, x: Turn)
    requires IsRun(r) && k < |r.steps| && r.steps[k] == Proceed(w, x) && !Failing(x) && !x.Accepted?
    ensures w in r.states[k].workers && w in r.states[k + 1].workers
    ensures var before, after := r.states[k].workers[w].phase, r.states[k + 1].workers[w].phase;
      match x
      case Validated(_) =>
        before == Validating && after == if r.states[k].workers[w].body.Request? then Signing else Recording
      case SignerReplied(signature) => before == Signing && after == PublishingSignature(signature.value)
      case SignatureSent(_, _) => before.PublishingSignature? && after == Accepting
      case RowCreated(key) =>
        before == Recording && after.Submitting? && after.key == key.value && key.value in r.states[k + 1].records
        && after.row == r.states[k + 1].records[key.value]
      case ChainReplied(_, result) =>
        before.Submitting? && after == PublishingResult(before.key, before.row, result.value)
      case ResultSent(_, _) => before.PublishingResult? && after == Updating(before.key, before.row, before.result)
      case UpdateStarted => before.Updating? && after == Accepting
  {
    hide ActsOf, SignedAfter, UpdatesAfter, QueueAfter, NewRow;
  }

  /** A new row is Signed and has no result; the rest of it `RowsAreTrue` tells. */
  lemma RowIsCreated(r: Run, k: nat, w: nat, key: nat)
    requires IsRun(r) && k < |r.steps| && r.steps[k] == Proceed(w, RowCreated(Some(key)))
    ensures w in r.states[k].workers && r.states[k].workers[w].body.Signature? && key in r.states[k + 1].records
    ensures var s, s', body := r.states[k], r.states[k + 1], r.states[k].workers[w].body;
      var row := s'.records[key];
      && row.tx == body.id && row.payload == body.payload && row.signature == body.signature
      && row.status == Signed && row.result.None?
      && s'.records == s.records[key := row]
  {
    hide QueueAfter, WorkersAfter, ActsOf, ParseHex;
  }

  /** The update that is started writes Finalized and the known result, under the row's own key, and nothing else. */
  lemma UpdateIsStarted(r: Run, k: nat, w: nat)
    requires IsRun(r) && k < |r.steps| && r.steps[k] == Proceed(w, UpdateStarted)
    ensures w in r.states[k].workers && r.states[k].workers[w].phase.Updating?
    ensures var s, s', phase := r.states[k], r.states[k + 1], r.states[k].workers[w].phase;
      var row := phase.row;
      && s'.records == s.records
      && s'.updates == s.updates + {(phase.key, Record(row.tx, row.payload, row.signature, row.address, row.nonce,
                                                       Finalized, Some(phase.result)))}
  {
    hide QueueAfter, WorkersAfter, ActsOf;
  }

  /** Written, an update replaces the row if it is still there; lost, it changes nothing; either way it is gone. */
  lemma UpdateIsWritten(r: Run, k: nat, key: nat, row: Record)
    requires IsRun(r) && k < |r.steps| && (r.steps[k] == Write(key, row) || r.steps[k] == LoseWrite(key, row))
    ensures var s, s' := r.states[k], r.states[k + 1];
      && (key, row) in s.updates && s'.updates == s.updates - {(key, row)}
      && s'.records == if r.steps[k].Write? && key in s.records then s.records[key := row] else s.records
  {
  }

  /** A reply of the chain is noted as a submission of the row's payload and signature, if it was included. */
  lemma ReplyIsNoted(r: Run, k: nat, w: nat, included: bool, result: Option<ChainResult>)
    requires IsRun(r) && k < |r.steps| && r.steps[k] == Proceed(w, ChainReplied(included, result))
    ensures w in r.states[k].workers
    ensures var s, s', body := r.states[k], r.states[k + 1], r.states[k].workers[w].body;
      && body.Signature?
      && s'.log == s.log + if included then [Submitted(s.workers[w].m, body.payload, body.signature)] else []
  {
    hide QueueOk, LogOk, RowsOk, NothingLost, QueueAfter, WorkersAfter, NextPhase;
    RunInv(r, k);
    assert WorkOk(r.states[k], r.states[k].workers[w]);
  }

  /** What the manager signed is stored as a signature message: id and payload of the request, and that signature. */
  lemma SignatureIsStored(r: Run, k: nat, w: nat, ok: bool)
    requires IsRun(r) && k < |r.steps| && r.steps[k] == Proceed(w, SignatureSent(true, ok))
    ensures w in r.states[k].workers && r.states[k].workers[w].phase.PublishingSignature?
    ensures var s, s', work := r.states[k], r.states[k + 1], r.states[k].workers[w];
      && s'.next == s.next + 1 && s.next in s'.queue && work.m != s.next
      && s'.queue[s.next] == Signature(work.body.id, work.body.payload, work.phase.signature)
      && s'.log == s.log + [Forwarded(work.body.id, work.phase.signature)]
  {
    OldEnough(r, k, w);
    hide NextPhase, WorkersAfter;
  }

  /** The manager is given the request's own payload, and its reply is kept. */
  lemma ReplyIsKept(r: Run, k: nat, w: nat, signature: string)
    requires IsRun(r) && k < |r.steps| && r.steps[k] == Proceed(w, SignerReplied(Some(signature)))
    ensures w in r.states[k].workers && r.states[k].workers[w].body.Request?
    ensures var s, s', work := r.states[k], r.states[k + 1], r.states[k].workers[w];
      && s'.signed == s.signed + {(work.body.payload.signable, signature)}
      && s'.log == s.log + [Made(work.m, signature)] && s'.queue == s.queue
  {
    hide WorkersAfter, QueueAfter;
    SignerLeavesQueue(r.states[k].queue, r.states[k].next, r.states[k].workers[w], signature);
  }

  lemma SignerLeavesQueue(queue: map<MsgId, Message>, next: MsgId, work: Work, signature: string)
    requires TurnEnabled(work, SignerReplied(Some(signature)))
    ensures QueueAfter(queue, next, work, SignerReplied(Some(signature))) == queue
  {
  }

  /**
   * The broker hands a message that nobody holds to a free worker, one attempt further; keeps it when the
   * worker crashes; and after three attempts puts it aside as it is.
   */
  lemma BrokerDecides(r: Run, k: nat)
    requires IsRun(r) && k < |r.steps|
    ensures var s, s' := r.states[k], r.states[k + 1];
      match r.steps[k]
      case Deliver(w, m) =>
        && w !in s.workers && m in s.queue && (forall v :: v in s.workers ==> s.workers[v].m != m)
        && AttemptsOf(s, m) < 3 && AttemptsOf(s', m) == AttemptsOf(s, m) + 1
        && s' == s.(workers := s.workers[w := Work(m, s.queue[m], Validating)], attempts := s'.attempts)
      case Crash(w) => w in s.workers && s' == s.(workers := s.workers - {w})
      case GiveUp(m) =>
        && m in s.queue && (forall v :: v in s.workers ==> s.workers[v].m != m) && AttemptsOf(s, m) == 3
        && s' == s.(queue := s.queue - {m}, dead := s.dead[m := s.queue[m]])
      case _ => true
  {
    hide ApplyTurn, TurnEnabled;
    RunGraves(r, k);
    assert forall m :: AttemptsOf(r.states[k], m) <= 3;
    NobodyHolds(r.states[k]);
    hide Held;
  }

  lemma NobodyHolds(s: State)
    ensures forall m :: !Held(s, m) ==> forall v :: v in s.workers ==> s.workers[v].m != m
  {
  }

  // ---- requests ----

  /** A transaction keeps the payload it was begun with: what is to be signed, and the metadata with its id. */
  lemma {:induction false} BegunAs(r: Run, k: nat, j: nat, id: TxId, signable: Signable, metadata: map<string, string>)
    requires IsRun(r) && k < j < |r.states| && r.steps[k] == Begin(id, signable, metadata)
    ensures id in r.states[j].started && BegunWith(r.states[j].started[id], id, signable, metadata)
  {
    hide Enabled, Apply, BegunWith;
    if j > k + 1 {
      BegunAs(r, k, j - 1, id, signable, metadata);
      StartedStays(r.states[j - 1], r.steps[j - 1], id);
    } else {
      BeginStarts(r.states[k], id, signable, metadata);
    }
  }

  ghost predicate BegunWith(p: TxPayload, id: TxId, signable: Signable, metadata: map<string, string>) {
    && p.signable == signable && "internalTxId" in p.metadata && p.metadata["internalTxId"] == id
    && p.metadata.Keys == metadata.Keys + {"internalTxId"}
    && forall key :: key in metadata && key != "internalTxId" ==> p.metadata[key] == metadata[key]
  }

  lemma BeginStarts(s: State, id: TxId, signable: Signable, metadata: map<string, string>)
    requires Enabled(s, Begin(id, signable, metadata))
    ensures var s' := Apply(s, Begin(id, signable, metadata));
      id in s'.started && BegunWith(s'.started[id], id, signable, metadata)
  {
  }

  lemma StartedStays(s: State, x: Step, id: TxId)
    requires Enabled(s, x) && id in s.started
    ensures id in Apply(s, x).started && Apply(s, x).started[id] == s.started[id]
  {
    hide TurnEnabled, WorkersAfter, QueueAfter, SignedAfter, RecordsAfter, UpdatesAfter, ActsOf;
  }

  /** And it is put on Requests, as a new message, under its own id. */
  lemma BegunIsQueued(r: Run, k: nat, id: TxId, signable: Signable, metadata: map<string, string>)
    requires IsRun(r) && k < |r.steps| && r.steps[k] == Begin(id, signable, metadata)
    ensures var s, s' := r.states[k], r.states[k + 1];
      && s.next !in s.queue && s.next in s'.queue && s'.queue[s.next].Request? && s'.queue[s.next].id == id
      && id in s'.started && s'.queue[s.next].payload == s'.started[id]
  {
    hide WorkersOk, LogOk, RowsOk, NothingLost, Sound;
    RunInv(r, k);
  }

  // ---- rows ----

  /** The row of a begun transaction: its payload, a signature made over it, its sender and its nonce. */
  ghost predicate RowTrue(s: State, row: Record) {
    && row.tx in s.started && row.payload == s.started[row.tx]
    && (row.payload.signable, row.signature) in s.signed
    && row.address == row.payload.signable.address && row.nonce == ParseHex(row.payload.signable.nonce)
  }

  ghost predicate RowsTrue(s: State) {
    && (forall k :: k in s.records ==> RowTrue(s, s.records[k]))
    && (forall u :: u in s.updates ==> RowTrue(s, u.1))
  }

  lemma RowTrueStays(s: State, x: Step, row: Record)
    requires Enabled(s, x) && RowTrue(s, row)
    ensures RowTrue(Apply(s, x), row)
  {
    StartedStays(s, x, row.tx);
    SignedGrows(s, x);
    hide Enabled, Apply, ParseHex;
  }

  lemma SignedGrows(s: State, x: Step)
    requires Enabled(s, x)
    ensures s.signed <= Apply(s, x).signed
  {
    hide TurnEnabled, WorkersAfter, QueueAfter, RecordsAfter, UpdatesAfter, ActsOf;
  }

  lemma WorkerRow(s: State, w: nat)
    requires Inv(s) && w in s.workers && s.workers[w].body.Signature?
    ensures RowTrue(s, NewRow(s.workers[w].body))
    ensures var phase := s.workers[w].phase; phase.Updating? ==> phase.row == NewRow(s.workers[w].body)
  {
    assert WorkOk(s, s.workers[w]);
    hide ParseHex, LogOk, RowsOk, NothingLost;
    assert Sound(s, s.workers[w].body);
  }

  lemma TurnRowsTrue(s: State, w: nat, x: Turn)
    requires Inv(s) && RowsTrue(s) && Enabled(s, Proceed(w, x))
    ensures RowsTrue(Apply(s, Proceed(w, x)))
  {
    var s', work := Apply(s, Proceed(w, x)), s.workers[w];
    assert TurnEnabled(work, x);
    WrittenIsTrue(s, w, x);
    hide Inv, RowTrue, NewRow, Enabled, Apply, TurnEnabled;
    TurnWrites(s, w, x);
    forall k | k in s'.records ensures RowTrue(s', s'.records[k]) {
      if k in s.records && s'.records[k] == s.records[k] { RowTrueStays(s, Proceed(w, x), s.records[k]); }
    }
    forall u | u in s'.updates ensures RowTrue(s', u.1) {
      if u in s.updates { RowTrueStays(s, Proceed(w, x), u.1); }
    }
  }

  /** The rows that a turn writes are true. */
  lemma WrittenIsTrue(s: State, w: nat, x: Turn)
    requires Inv(s) && Enabled(s, Proceed(w, x))
    ensures var s', work := Apply(s, Proceed(w, x)), s.workers[w];
      && (x.RowCreated? ==> work.body.Signature? && RowTrue(s', NewRow(work.body)))
      && (x.UpdateStarted? ==>
            RowTrue(s', work.phase.row.(status := Finalized, result := Some(work.phase.result))))
  {
    var s', work := Apply(s, Proceed(w, x)), s.workers[w];
    assert work.phase.Updating? ==> work.body.Signature? by {
      hide LogOk, RowsOk, NothingLost;
      assert WorkOk(s, work);
    }
    if work.body.Signature? {
      WorkerRow(s, w);
      RowTrueStays(s, Proceed(w, x), NewRow(work.body));
    }
    FinalizedStaysTrue(s', work);
    hide Inv, RowTrue, NewRow, Apply;
  }

  lemma TurnWrites(s: State, w: nat, x: Turn)
    requires w in s.workers && TurnEnabled(s.workers[w], x) && (x.RowCreated? ==> s.workers[w].body.Signature?)
    ensures var s', work := Apply(s, Proceed(w, x)), s.workers[w];
      && Enabled(s, Proceed(w, x))
      && (forall k :: k in s'.records ==>
            (k in s.records && s'.records[k] == s.records[k]) || (x.RowCreated? && s'.records[k] == NewRow(work.body)))
      && (forall u :: u in s'.updates ==>
            u in s.updates
            || (x.UpdateStarted? && u.1 == work.phase.row.(status := Finalized, result := Some(work.phase.result))))
  {
    hide QueueAfter, WorkersAfter, SignedAfter, ActsOf, NewRow;
  }

  lemma FinalizedStaysTrue(s: State, work: Work)
    ensures work.phase.Updating? && RowTrue(s, work.phase.row) ==>
              RowTrue(s, work.phase.row.(status := Finalized, result := Some(work.phase.result)))
  {
  }

  lemma RowsTrueKept(s: State, x: Step)
    requires Inv(s) && RowsTrue(s) && Enabled(s, x)
    ensures RowsTrue(Apply(s, x))
  {
    if x.Proceed? {
      hide Inv, RowsTrue, Enabled, Apply;
      TurnRowsTrue(s, x.w, x.turn);
    } else {
      hide Inv, Held, RowTrue;
      var s' := Apply(s, x);
      forall k | k in s'.records ensures RowTrue(s', s'.records[k]) {
        RowTrueStays(s, x, s'.records[k]);
      }
      forall u | u in s'.updates ensures RowTrue(s', u.1) {
        RowTrueStays(s, x, u.1);
      }
    }
  }

  /** In every run, every row of the table, finalized or not, is true to the transaction it names. */
  lemma {:induction false} RowsAreTrue(r: Run, i: nat)
    requires IsRun(r) && i < |r.states|
    ensures RowsTrue(r.states[i])
  {
    if i > 0 {
      hide Inv, Enabled, Apply, RowsTrue;
      RowsAreTrue(r, i - 1);
      RunInv(r, i - 1);
      RowsTrueKept(r.states[i - 1], r.steps[i - 1]);
    }
  }

  // ---- results ----

  /** Before state `k`, the chain replied with this result to a submission of the transaction. */
  ghost predicate Replied(r: Run, k: nat, id: TxId, result: ChainResult) {
    exists h, w :: 0 <= h < k && RepliesAt(r, h, w, id, result)
  }

  predicate RepliesAt(r: Run, h: nat, w: nat, id: TxId, result: ChainResult) {
    && h < |r.steps| && h < |r.states| && r.steps[h] == Proceed(w, ChainReplied(true, Some(result)))
    && w in r.states[h].workers && r.states[h].workers[w].body.Signature? && r.states[h].workers[w].body.id == id
  }

  predicate Knows(phase: Phase) {
    phase.PublishingResult? || phase.Updating?
  }

  ghost predicate ResultsTrue(r: Run, k: nat)
    requires k < |r.states|
  {
    && (forall w :: w in r.states[k].workers && Knows(r.states[k].workers[w].phase) ==>
                      Replied(r, k, r.states[k].workers[w].body.id, r.states[k].workers[w].phase.result))
    && (forall j :: 0 <= j < |r.states[k].log| && r.states[k].log[j].Published? ==>
                      Replied(r, k, r.states[k].log[j].fin.id, r.states[k].log[j].fin.result))
  }

  lemma RepliedStays(r: Run, k: nat, id: TxId, result: ChainResult)
    requires Replied(r, k, id, result)
    ensures Replied(r, k + 1, id, result)
  {
    var h, w :| 0 <= h < k && RepliesAt(r, h, w, id, result);
    assert h < k + 1;
  }

  /** A listener knows a result from the chain's reply to it, or from before. */
  ghost predicate Learns(s: State, x: Step, s': State, v: nat)
    requires v in s'.workers && Knows(s'.workers[v].phase)
  {
    && v in s.workers && s.workers[v].body == s'.workers[v].body
    && (if Knows(s.workers[v].phase) then s.workers[v].phase.result == s'.workers[v].phase.result
        else s.workers[v].body.Signature? && x == Proceed(v, ChainReplied(true, Some(s'.workers[v].phase.result))))
  }

  lemma StepLearns(s: State, x: Step, v: nat)
    requires Enabled(s, x) && v in Apply(s, x).workers && Knows(Apply(s, x).workers[v].phase)
    ensures Learns(s, x, Apply(s, x), v)
  {
    hide QueueAfter, SignedAfter, RecordsAfter, UpdatesAfter, ActsOf, Held;
  }

  /** A finalization is published by a listener that knows its result, under the id of its own message. */
  lemma StepPublishes(s: State, x: Step, j: nat)
    requires Inv(s) && Enabled(s, x) && |s.log| <= j < |Apply(s, x).log| && Apply(s, x).log[j].Published?
    ensures x.Proceed? && x.w in s.workers && Knows(s.workers[x.w].phase)
    ensures var fin := Apply(s, x).log[j].fin;
      fin.id == s.workers[x.w].body.id && fin.result == s.workers[x.w].phase.result
  {
    assert x.Proceed? ==> WorkOk(s, s.workers[x.w]) by { hide WorkOk; }
    hide Inv, QueueAfter, SignedAfter, RecordsAfter, UpdatesAfter, WorkersAfter, Held, ParseHex, FinalizedIn,
      SubmittedIn;
  }

  lemma LogGrows(s: State, x: Step)
    requires Enabled(s, x)
    ensures s.log <= Apply(s, x).log
  {
    hide QueueAfter, SignedAfter, RecordsAfter, UpdatesAfter, WorkersAfter, Held, TurnEnabled, ActsOf;
  }

  lemma {:induction false} RunResults(r: Run, k: nat)
    requires IsRun(r) && k < |r.states|
    ensures ResultsTrue(r, k)
  {
    hide Enabled, Apply, Replied, Inv;
    if k > 0 {
      RunResults(r, k - 1);
      RunInv(r, k - 1);
      var s, x, s' := r.states[k - 1], r.steps[k - 1], r.states[k];
      LogGrows(s, x);
      forall v | v in s'.workers && Knows(s'.workers[v].phase)
        ensures Replied(r, k, s'.workers[v].body.id, s'.workers[v].phase.result)
      {
        StepLearns(s, x, v);
        WorkerReplied(r, k - 1, v);
      }
      forall j | 0 <= j < |s'.log| && s'.log[j].Published?
        ensures Replied(r, k, s'.log[j].fin.id, s'.log[j].fin.result)
      {
        if j >= |s.log| { StepPublishes(s, x, j); }
        RepliedStays(r, k - 1, s'.log[j].fin.id, s'.log[j].fin.result);
      }
    }
  }

  lemma WorkerReplied(r: Run, k: nat, v: nat)
    requires k < |r.steps| && k + 1 < |r.states| && ResultsTrue(r, k)
    requires v in r.states[k + 1].workers && Knows(r.states[k + 1].workers[v].phase)
    requires Learns(r.states[k], r.steps[k], r.states[k + 1], v)
    ensures Replied(r, k + 1, r.states[k + 1].workers[v].body.id, r.states[k + 1].workers[v].phase.result)
  {
    var work := r.states[k + 1].workers[v];
    if Knows(r.states[k].workers[v].phase) {
      RepliedStays(r, k, work.body.id, work.phase.result);
    } else {
      assert RepliesAt(r, k, v, work.body.id, work.phase.result);
    }
  }

  /**
   * In every run, a finalization carries, unchanged, the result with which the chain replied to a
   * submission of that transaction.
   */
  lemma ResultIsTheChains(r: Run, k: nat, j: nat)
    requires IsRun(r) && k < |r.states| && j < |r.states[k].log| && r.states[k].log[j].Published?
    ensures Replied(r, k, r.states[k].log[j].fin.id, r.states[k].log[j].fin.result)
  {
    hide IsRun, Replied;
    RunResults(r, k);
  }

  /** The publication that a finalized row rests on, part by part. */
  ghost predicate PublishedAs(log: seq<Act>, j: nat, row: Record) {
    && j < |log| && log[j].Published? && row.result.Some?
    && log[j].fin.id == row.tx && log[j].fin.address == row.address && log[j].fin.nonce == row.nonce
    && log[j].fin.result == row.result.value
  }

  /** A finalized row holds the very result, id, sender and nonce that were published before. */
  lemma FinalizedRowIsPublished(r: Run, k: nat, key: nat)
    requires IsRun(r) && k < |r.states| && key in r.states[k].records && r.states[k].records[key].status.Finalized?
    ensures exists j :: PublishedAs(r.states[k].log, j, r.states[k].records[key])
  {
    var s, row := r.states[k], r.states[k].records[key];
    FinalizedRowIsTrue(r, k, key);
    hide IsRun;
    var j: nat :| j < |s.log| && s.log[j] == Published(FinalizationOf(row, row.result.value))
      && SubmittedIn(s.log[..j], row.payload, row.signature);
    assert PublishedAs(s.log, j, row);
  }
}
