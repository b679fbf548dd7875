/** No started transaction is lost, and whatever is finalized was started, signed and submitted. */
module OfflineProofs {
  import opened Wrappers
  import opened Numerals
  import opened OfflineModel

  // ---- provenance of messages ----

  /** A message of a started transaction, with its own payload and, if signed, a signature over it. */
  ghost predicate Sound(s: State, msg: Message) {
    && msg.id in s.started && msg.payload == s.started[msg.id]
    && (msg.Signature? ==> (msg.payload.signable, msg.signature) in s.signed)
  }

  // ---- the log ----

  predicate IsSubmission(act: Act, payload: TxPayload, signature: string) {
    act.Submitted? && act.payload == payload && act.signature == signature
  }

  ghost predicate SubmittedIn(log: seq<Act>, payload: TxPayload, signature: string) {
    exists i :: 0 <= i < |log| && IsSubmission(log[i], payload, signature)
  }

  /** The row was submitted to the chain and then its finalization published. */
  ghost predicate FinalizedIn(log: seq<Act>, row: Record, result: ChainResult) {
    exists j :: 0 <= j < |log| && log[j] == Published(FinalizationOf(row, result))
      && SubmittedIn(log[..j], row.payload, row.signature)
  }

  ghost predicate DoneIn(log: seq<Act>, id: TxId) {
    exists j :: 0 <= j < |log| && log[j].Published? && log[j].fin.id == id
  }

  lemma SubmittedStays(log: seq<Act>, more: seq<Act>, payload: TxPayload, signature: string)
    requires SubmittedIn(log, payload, signature)
    ensures SubmittedIn(log + more, payload, signature)
  {
    var i :| 0 <= i < |log| && IsSubmission(log[i], payload, signature);
    assert (log + more)[i] == log[i];
  }

  lemma FinalizedStays(log: seq<Act>, more: seq<Act>, row: Record, result: ChainResult)
    requires FinalizedIn(log, row, result)
    ensures FinalizedIn(log + more, row, result)
  {
    var j :| 0 <= j < |log| && log[j] == Published(FinalizationOf(row, result))
      && SubmittedIn(log[..j], row.payload, row.signature);
    assert (log + more)[j] == log[j] && (log + more)[..j] == log[..j];
  }

  lemma DoneStays(log: seq<Act>, more: seq<Act>, id: TxId)
    requires DoneIn(log, id)
    ensures DoneIn(log + more, id)
  {
    var j :| 0 <= j < |log| && log[j].Published? && log[j].fin.id == id;
    assert (log + more)[j] == log[j];
  }

  // ---- conservation ----

  ghost predicate Queued(s: State, id: TxId, signed: bool) {
    exists m :: m in s.queue && s.queue[m].id == id && s.queue[m].Signature? == signed
  }

  ghost predicate Buried(s: State, id: TxId) {
    exists m :: m in s.dead && s.dead[m].id == id
  }

  /** Past the signer: its signature waits, or it is finalized, or a message of it is dead. */
  ghost predicate Covered(s: State, id: TxId) {
    Queued(s, id, true) || DoneIn(s.log, id) || Buried(s, id)
  }

  ghost predicate NothingLost(s: State) {
    forall id :: id in s.started ==> Queued(s, id, false) || Covered(s, id)
  }

  // ---- invariant ----

  ghost predicate WorkOk(s: State, work: Work) {
    && work.m in s.queue && s.queue[work.m] == work.body
    && match work.phase
       case Validating => true
       case Signing => work.body.Request?
       case PublishingSignature(sig) => work.body.Request? && (work.body.payload.signable, sig) in s.signed
       case Recording => work.body.Signature?
       case Submitting(_, row) => work.body.Signature? && row == NewRow(work.body)
       case PublishingResult(_, row, _) =>
         work.body.Signature? && row == NewRow(work.body) && SubmittedIn(s.log, row.payload, row.signature)
       case Updating(_, row, result) =>
         work.body.Signature? && row == NewRow(work.body) && FinalizedIn(s.log, row, result)
       case Accepting => if work.body.Request? then Covered(s, work.body.id) else DoneIn(s.log, work.body.id)
  }

  ghost predicate QueueOk(s: State) {
    && (forall m :: m in s.queue ==> m < s.next && Sound(s, s.queue[m]))
    && (forall m :: m in s.dead ==> m < s.next && m !in s.queue && Sound(s, s.dead[m]))
  }

  ghost predicate WorkersOk(s: State) {
    && (forall w :: w in s.workers ==> WorkOk(s, s.workers[w]))
    && (forall w, w' :: w in s.workers && w' in s.workers && s.workers[w].m == s.workers[w'].m ==> w == w')
  }

  /** A submission is of a started payload with a signature over it; a finalization follows its submission. */
  ghost predicate ActOk(s: State, j: nat)
    requires j < |s.log|
  {
    match s.log[j]
    case Made(_, _) => true
    case Forwarded(id, sig) => id in s.started && (s.started[id].signable, sig) in s.signed
    case Submitted(_, payload, sig) =>
      (payload.signable, sig) in s.signed && exists id :: id in s.started && s.started[id] == payload
    case Published(fin) =>
      && fin.id in s.started
      && fin.address == s.started[fin.id].signable.address && fin.nonce == ParseHex(s.started[fin.id].signable.nonce)
      && exists sig :: SubmittedIn(s.log[..j], s.started[fin.id], sig)
  }

  ghost predicate LogOk(s: State) {
    forall j :: 0 <= j < |s.log| ==> ActOk(s, j)
  }

  ghost predicate RowOk(s: State, row: Record) {
    row.status.Finalized? ==> row.result.Some? && FinalizedIn(s.log, row, row.result.value)
  }

  ghost predicate RowsOk(s: State) {
    && (forall k :: k in s.records ==> RowOk(s, s.records[k]))
    && (forall u :: u in s.updates ==> RowOk(s, u.1))
  }

  ghost predicate Inv(s: State) {
    QueueOk(s) && WorkersOk(s) && LogOk(s) && RowsOk(s) && NothingLost(s)
  }

  // ---- what only grows ----

  ghost predicate Grows(s: State, s': State, more: seq<Act>) {
    && (forall id :: id in s.started ==> id in s'.started && s'.started[id] == s.started[id])
    && s.signed <= s'.signed
    && s'.log == s.log + more
  }

  lemma LogStays(s: State, s': State, more: seq<Act>)
    requires LogOk(s) && Grows(s, s', more)
    requires forall j :: |s.log| <= j < |s'.log| ==> ActOk(s', j)
    ensures LogOk(s')
  {
    forall j | 0 <= j < |s.log| ensures ActOk(s', j) {
      assert ActOk(s, j);
      assert s'.log[j] == s.log[j] && s'.log[..j] == s.log[..j];
    }
  }

  lemma RowStays(s: State, s': State, more: seq<Act>, row: Record)
    requires RowOk(s, row) && Grows(s, s', more)
    ensures RowOk(s', row)
  {
    if row.status.Finalized? {
      FinalizedStays(s.log, more, row, row.result.value);
    }
  }

  /** A delivery in progress is undisturbed by steps that leave its message queued and nobody uncovered. */
  lemma WorkStays(s: State, s': State, more: seq<Act>, work: Work)
    requires WorkOk(s, work) && Grows(s, s', more)
    requires work.m in s'.queue && s'.queue[work.m] == work.body
    requires Covered(s, work.body.id) ==> Covered(s', work.body.id)
    ensures WorkOk(s', work)
  {
    match work.phase
    case PublishingResult(_, row, _) => SubmittedStays(s.log, more, row.payload, row.signature);
    case Updating(_, row, result) => FinalizedStays(s.log, more, row, result);
    case Accepting => if work.body.Signature? { DoneStays(s.log, more, work.body.id); }
    case _ =>
  }

  // ---- one turn of a listener ----

  /** A turn loses no cover: what leaves the queue was covered, or becomes a rejected delivery. */
  lemma TurnCovers(s: State, w: nat, x: Turn, id: TxId)
    requires QueueOk(s) && w in s.workers && WorkOk(s, s.workers[w]) && TurnEnabled(s.workers[w], x)
    ensures var s' := ApplyTurn(s, w, x);
      && (Covered(s, id) ==> Covered(s', id))
      && (Queued(s, id, false) ==> Queued(s', id, false) || Covered(s', id))
  {
    var s', work := ApplyTurn(s, w, x), s.workers[w];
    if DoneIn(s.log, id) {
      DoneStays(s.log, ActsOf(work, x), id);
    }
    if Buried(s, id) {
      var m :| m in s.dead && s.dead[m].id == id;
      assert m in s'.dead && s'.dead[m].id == id;
    }
    if Settles(work, x) && !x.Accepted? && work.body.id == id {
      assert work.m in s'.dead && s'.dead[work.m].id == id;
    }
    TurnKeepsQueued(s, w, x, id, true);
    TurnKeepsQueued(s, w, x, id, false);
  }

  lemma TurnKeepsQueued(s: State, w: nat, x: Turn, id: TxId, signed: bool)
    requires QueueOk(s) && w in s.workers && WorkOk(s, s.workers[w]) && TurnEnabled(s.workers[w], x)
    ensures var s', work := ApplyTurn(s, w, x), s.workers[w];
      Queued(s, id, signed) ==>
        Queued(s', id, signed) || (Settles(work, x) && work.body.id == id && work.body.Signature? == signed)
  {
    var s', work := ApplyTurn(s, w, x), s.workers[w];
    if Queued(s, id, signed) {
      var m :| m in s.queue && s.queue[m].id == id && s.queue[m].Signature? == signed;
      if m != work.m || !Settles(work, x) {
        assert m in s'.queue && s'.queue[m] == s.queue[m];
      }
    }
  }

  lemma TurnNothingLost(s: State, w: nat, x: Turn)
    requires Inv(s) && w in s.workers && TurnEnabled(s.workers[w], x)
    ensures NothingLost(ApplyTurn(s, w, x))
  {
    hide Queued, Covered;
    forall id | id in s.started ensures Queued(ApplyTurn(s, w, x), id, false) || Covered(ApplyTurn(s, w, x), id) {
      TurnCovers(s, w, x, id);
    }
  }

  lemma TurnGrows(s: State, w: nat, x: Turn)
    requires w in s.workers && TurnEnabled(s.workers[w], x)
    ensures Grows(s, ApplyTurn(s, w, x), ActsOf(s.workers[w], x))
  {
  }

  lemma TurnQueue(s: State, w: nat, x: Turn)
    requires QueueOk(s) && w in s.workers && WorkOk(s, s.workers[w]) && TurnEnabled(s.workers[w], x)
    ensures QueueOk(ApplyTurn(s, w, x))
  {
    var s', work := ApplyTurn(s, w, x), s.workers[w];
    assert s.started == s'.started && s.signed <= s'.signed && Sound(s, work.body);
    assert work.phase.PublishingSignature? ==> (work.body.payload.signable, work.phase.signature) in s.signed;
    hide WorkOk, NextPhase, ActsOf, RecordsAfter, UpdatesAfter, SignedAfter, WorkersAfter;
    forall m | m in s'.queue ensures m < s'.next && Sound(s', s'.queue[m]) {
      assert m in s.queue ==> Sound(s, s.queue[m]);
    }
    forall m | m in s'.dead ensures m < s'.next && m !in s'.queue && Sound(s', s'.dead[m]) {
      assert m in s.dead ==> Sound(s, s.dead[m]);
    }
  }

  /** The listener's own next phase is in order. */
  lemma TurnOwnWork(s: State, w: nat, x: Turn)
    requires QueueOk(s) && w in s.workers && WorkOk(s, s.workers[w]) && TurnEnabled(s.workers[w], x)
    requires !Settles(s.workers[w], x)
    ensures w in ApplyTurn(s, w, x).workers && WorkOk(ApplyTurn(s, w, x), ApplyTurn(s, w, x).workers[w])
  {
    var s', work := ApplyTurn(s, w, x), s.workers[w];
    match x
    case SignatureSent(_, _) =>
      assert s.next in s'.queue && s'.queue[s.next].id == work.body.id && s'.queue[s.next].Signature?;
    case ChainReplied(_, _) =>
      assert IsSubmission(s'.log[|s.log|], work.phase.row.payload, work.phase.row.signature);
    case ResultSent(_, _) =>
      assert s'.log[|s.log|] == Published(FinalizationOf(work.phase.row, work.phase.result));
      assert s'.log[..|s.log|] == s.log;
    case UpdateStarted =>
      FinalizedIsDone(s.log, work.phase.row, work.phase.result);
      assert s'.log == s.log;
    case _ =>
  }

  lemma FinalizedIsDone(log: seq<Act>, row: Record, result: ChainResult)
    requires FinalizedIn(log, row, result)
    ensures DoneIn(log, row.tx)
  {
  }

  lemma TurnOtherWork(s: State, w: nat, x: Turn, w': nat)
    requires QueueOk(s) && WorkersOk(s) && w in s.workers && w' in s.workers && w' != w && TurnEnabled(s.workers[w], x)
    ensures WorkOk(ApplyTurn(s, w, x), s.workers[w'])
  {
    var s', work := ApplyTurn(s, w, x), s.workers[w'];
    assert WorkOk(s, work) && WorkOk(s, s.workers[w]) && work.m != s.workers[w].m;
    TurnGrows(s, w, x);
    TurnCovers(s, w, x, work.body.id);
    assert work.m in s'.queue && s'.queue[work.m] == work.body;
    hide ApplyTurn, WorkOk, Covered;
    WorkStays(s, s', ActsOf(s.workers[w], x), work);
  }

  lemma TurnWorkers(s: State, w: nat, x: Turn)
    requires QueueOk(s) && WorkersOk(s) && w in s.workers && TurnEnabled(s.workers[w], x)
    ensures WorkersOk(ApplyTurn(s, w, x))
  {
    hide QueueOk, WorkOk, TurnEnabled;
    var s' := ApplyTurn(s, w, x);
    forall w' | w' in s'.workers ensures WorkOk(s', s'.workers[w']) {
      if w' == w {
        TurnOwnWork(s, w, x);
      } else {
        TurnOtherWork(s, w, x, w');
      }
    }
  }

  lemma TurnLog(s: State, w: nat, x: Turn)
    requires QueueOk(s) && LogOk(s) && w in s.workers && WorkOk(s, s.workers[w]) && TurnEnabled(s.workers[w], x)
    ensures LogOk(ApplyTurn(s, w, x))
  {
    var s', work := ApplyTurn(s, w, x), s.workers[w];
    assert Sound(s, work.body);
    TurnGrows(s, w, x);
    forall j | |s.log| <= j < |s'.log| ensures ActOk(s', j) {
      assert j == |s.log| && s'.log[..j] == s.log;
      if x.ResultSent? {
        assert SubmittedIn(s.log, s.started[work.body.id], work.body.signature);
      }
    }
    LogStays(s, s', ActsOf(work, x));
  }

  lemma TurnRows(s: State, w: nat, x: Turn)
    requires RowsOk(s) && w in s.workers && WorkOk(s, s.workers[w]) && TurnEnabled(s.workers[w], x)
    ensures RowsOk(ApplyTurn(s, w, x))
  {
    var s', work := ApplyTurn(s, w, x), s.workers[w];
    TurnGrows(s, w, x);
    if x.UpdateStarted? {
      UpdatedRowOk(s, work.phase.row, work.phase.result);
      assert s'.log == s.log;
    }
    hide Grows;
    forall k | k in s'.records ensures RowOk(s', s'.records[k]) {
      if k in s.records && s'.records[k] == s.records[k] { RowStays(s, s', ActsOf(work, x), s.records[k]); }
    }
    forall u | u in s'.updates ensures RowOk(s', u.1) {
      if u in s.updates { RowStays(s, s', ActsOf(work, x), u.1); }
    }
  }

  lemma UpdatedRowOk(s: State, row: Record, result: ChainResult)
    requires FinalizedIn(s.log, row, result)
    ensures RowOk(s, row.(status := Finalized, result := Some(result)))
  {
  }

  // ---- all steps ----

  /** Steps that settle nothing: the queue only grows, and everybody stays covered. */
  lemma QuietKept(s: State, s': State)
    requires Inv(s) && Grows(s, s', []) && s.next <= s'.next
    requires forall m :: m in s.queue ==> m in s'.queue && s'.queue[m] == s.queue[m]
    requires s'.dead == s.dead
    requires forall id :: id in s'.started && id !in s.started ==> Queued(s', id, false)
    ensures NothingLost(s') && LogOk(s') && forall id :: Covered(s, id) ==> Covered(s', id)
  {
    assert s'.log == s.log;
    LogStays(s, s', []);
    forall id ensures Covered(s, id) ==> Covered(s', id) {
      if Queued(s, id, true) { QueuedStays(s, s', id, true); }
    }
    forall id | id in s'.started ensures Queued(s', id, false) || Covered(s', id) {
      if id in s.started && Queued(s, id, false) { QueuedStays(s, s', id, false); }
    }
  }

  lemma QueuedStays(s: State, s': State, id: TxId, signed: bool)
    requires Queued(s, id, signed) && forall m :: m in s.queue ==> m in s'.queue && s'.queue[m] == s.queue[m]
    ensures Queued(s', id, signed)
  {
  }

  /** Workers that a quiet step leaves alone. */
  lemma WorkStaysQuiet(s: State, s': State, work: Work)
    requires Inv(s) && WorkOk(s, work) && Grows(s, s', [])
    requires work.m in s'.queue && s'.queue[work.m] == work.body
    requires forall id :: Covered(s, id) ==> Covered(s', id)
    ensures WorkOk(s', work)
  {
    hide Inv, WorkOk, Grows, Covered;
    WorkStays(s, s', [], work);
  }

  lemma BeginQueue(s: State, id: TxId, signable: Signable, metadata: map<string, string>)
    requires QueueOk(s) && id !in s.started
    ensures QueueOk(ApplyBegin(s, id, signable, metadata))
  {
  }

  lemma BeginKept(s: State, id: TxId, signable: Signable, metadata: map<string, string>)
    requires Inv(s) && id !in s.started
    ensures Inv(ApplyBegin(s, id, signable, metadata))
  {
    var s' := ApplyBegin(s, id, signable, metadata);
    assert s'.queue[s.next].id == id;
    assert s.log + [] == s.log;
    BeginQueue(s, id, signable, metadata);
    QuietKept(s, s');
    hide NothingLost, LogOk, Covered, RowOk, Queued;
    forall w | w in s'.workers ensures WorkOk(s', s'.workers[w]) {
      assert s.workers[w].m in s.queue && s.queue[s.workers[w].m] == s.workers[w].body;
      hide WorkOk;
      WorkStaysQuiet(s, s', s.workers[w]);
    }
    RowsStayQuiet(s, s');
  }

  lemma RowsStayQuiet(s: State, s': State)
    requires RowsOk(s) && Grows(s, s', []) && s'.records == s.records && s'.updates == s.updates
    ensures RowsOk(s')
  {
    hide Grows, RowOk;
    forall k | k in s'.records ensures RowOk(s', s'.records[k]) { RowStays(s, s', [], s.records[k]); }
    forall u | u in s'.updates ensures RowOk(s', u.1) { RowStays(s, s', [], u.1); }
  }

  /** Steps that leave the queues, the log and the rows alone, and give or take a worker. */
  lemma StaffKept(s: State, s': State)
    requires Inv(s) && s' == s.(workers := s'.workers, attempts := s'.attempts)
    requires forall w :: w in s'.workers && w !in s.workers ==> WorkOk(s', s'.workers[w])
    requires forall w :: w in s'.workers && w in s.workers ==> s'.workers[w] == s.workers[w]
    requires forall w, w' :: w in s'.workers && w' in s'.workers && s'.workers[w].m == s'.workers[w'].m ==> w == w'
    ensures Inv(s')
  {
    assert s.log + [] == s.log;
    QuietKept(s, s');
    hide Covered, NothingLost, LogOk, RowOk;
    forall w | w in s'.workers ensures WorkOk(s', s'.workers[w]) {
      if w in s.workers {
        assert WorkOk(s, s.workers[w]);
        WorkStaysQuiet(s, s', s.workers[w]);
      }
    }
    RowsStayQuiet(s, s');
    QueueStaysOk(s, s');
  }

  lemma QueueStaysOk(s: State, s': State)
    requires QueueOk(s) && s' == s.(workers := s'.workers, attempts := s'.attempts)
    ensures QueueOk(s')
  {
  }

  lemma DeliverKept(s: State, w: nat, m: MsgId)
    requires Inv(s) && Enabled(s, Deliver(w, m))
    ensures Inv(Apply(s, Deliver(w, m)))
  {
    hide QueueOk, LogOk, RowsOk, NothingLost;
    StaffKept(s, Apply(s, Deliver(w, m)));
  }

  lemma CrashKept(s: State, w: nat)
    requires Inv(s) && w in s.workers
    ensures Inv(s.(workers := s.workers - {w}))
  {
    hide QueueOk, LogOk, RowsOk, NothingLost;
    StaffKept(s, s.(workers := s.workers - {w}));
  }

  /** A message moves from the queue to the dead ones. */
  function Bury(s: State, m: MsgId): State
    requires m in s.queue
  {
    s.(queue := s.queue - {m}, dead := s.dead[m := s.queue[m]])
  }

  lemma BuryCovers(s: State, m: MsgId, id: TxId)
    requires m in s.queue && m !in s.dead
    ensures Covered(s, id) ==> Covered(Bury(s, m), id)
    ensures Queued(s, id, false) ==> Queued(Bury(s, m), id, false) || Covered(Bury(s, m), id)
  {
    var s' := Bury(s, m);
    forall signed | Queued(s, id, signed) ensures Queued(s', id, signed) || Buried(s', id) {
      var n :| n in s.queue && s.queue[n].id == id && s.queue[n].Signature? == signed;
      assert if n == m then n in s'.dead && s'.dead[n].id == id else n in s'.queue && s'.queue[n] == s.queue[n];
    }
    if Buried(s, id) {
      var n :| n in s.dead && s.dead[n].id == id;
      assert n in s'.dead && s'.dead[n].id == id;
    }
  }

  lemma BuryQueue(s: State, m: MsgId)
    requires QueueOk(s) && m in s.queue
    ensures QueueOk(Bury(s, m)) && m !in s.dead
  {
  }

  lemma BuryWorkers(s: State, m: MsgId)
    requires Inv(s) && m in s.queue && !Held(s, m) && forall id :: Covered(s, id) ==> Covered(Bury(s, m), id)
    ensures WorkersOk(Bury(s, m))
  {
    hide QueueOk, LogOk, RowsOk, NothingLost, Covered;
    assert s.log + [] == s.log;
    forall w | w in s.workers ensures WorkOk(Bury(s, m), s.workers[w]) {
      assert WorkOk(s, s.workers[w]) && s.workers[w].m != m;
      WorkStaysQuiet(s, Bury(s, m), s.workers[w]);
    }
  }

  lemma GiveUpKept(s: State, m: MsgId)
    requires Inv(s) && Enabled(s, GiveUp(m))
    ensures Inv(Bury(s, m))
  {
    var s' := Bury(s, m);
    BuryQueue(s, m);
    assert s.log + [] == s.log;
    hide QueueOk, WorkersOk, Covered, Queued, RowsOk, ActOk, Held;
    LogStays(s, s', []);
    RowsStayQuiet(s, s');
    forall id
      ensures Covered(s, id) ==> Covered(s', id)
      ensures Queued(s, id, false) ==> Queued(s', id, false) || Covered(s', id)
    {
      BuryCovers(s, m, id);
    }
    BuryWorkers(s, m);
  }

  lemma WriteKept(s: State, s': State)
    requires Inv(s) && s' == s.(records := s'.records, updates := s'.updates)
    requires forall k :: k in s'.records ==> RowOk(s, s'.records[k])
    requires forall u :: u in s'.updates ==> RowOk(s, u.1)
    ensures Inv(s')
  {
    assert s.log + [] == s.log;
    QuietKept(s, s');
    forall w | w in s'.workers ensures WorkOk(s', s'.workers[w]) {
      WorkStaysQuiet(s, s', s.workers[w]);
    }
  }

  lemma TurnKept(s: State, w: nat, x: Turn)
    requires Inv(s) && w in s.workers && TurnEnabled(s.workers[w], x)
    ensures Inv(ApplyTurn(s, w, x))
  {
    assert WorkOk(s, s.workers[w]);
    TurnNothingLost(s, w, x);
    hide QueueOk, WorkersOk, LogOk, RowsOk, NothingLost, WorkOk, ApplyTurn;
    TurnQueue(s, w, x);
    TurnWorkers(s, w, x);
    TurnLog(s, w, x);
    TurnRows(s, w, x);
  }

  lemma InvKept(s: State, x: Step)
    requires Inv(s) && Enabled(s, x)
    ensures Inv(Apply(s, x))
  {
    hide ApplyTurn, TurnEnabled, QueueOk, WorkersOk, LogOk, NothingLost, RowOk, Held;
    match x
    case Begin(id, signable, metadata) => BeginKept(s, id, signable, metadata);
    case Deliver(w, m) => DeliverKept(s, w, m);
    case Proceed(w, turn) => TurnKept(s, w, turn);
    case Crash(w) => CrashKept(s, w);
    case GiveUp(m) => GiveUpKept(s, m);
    case Write(key, row) => WriteKept(s, Apply(s, x));
    case LoseWrite(key, row) => WriteKept(s, Apply(s, x));
  }

  lemma {:induction false} RunInv(r: Run, i: nat)
    requires IsRun(r) && i < |r.states|
    ensures Inv(r.states[i])
  {
    if i == 0 {
      assert Inv(START);
    } else {
      hide Inv, Enabled, Apply;
      RunInv(r, i - 1);
      InvKept(r.states[i - 1], r.steps[i - 1]);
    }
  }

  // ---- what every run guarantees ----

  /** A dead message was rejected by its listener, or was delivered as often as the broker allows. */
  ghost predicate GravesOk(s: State) {
    && (forall m :: m in s.dead ==> m in s.refused || AttemptsOf(s, m) == 3)
    && (forall m :: AttemptsOf(s, m) <= 3)
  }

  lemma TurnGraves(s: State, w: nat, x: Turn)
    requires GravesOk(s) && w in s.workers && TurnEnabled(s.workers[w], x)
    ensures GravesOk(ApplyTurn(s, w, x))
  {
    hide TurnEnabled, NextPhase, ActsOf, SignedAfter, RecordsAfter, UpdatesAfter, QueueAfter, WorkersAfter;
    var s' := ApplyTurn(s, w, x);
    assert forall m :: AttemptsOf(s', m) == AttemptsOf(s, m);
  }

  lemma GravesKept(s: State, x: Step)
    requires GravesOk(s) && Enabled(s, x)
    ensures GravesOk(Apply(s, x))
  {
    hide ApplyTurn, TurnEnabled, Held;
    if x.Proceed? {
      TurnGraves(s, x.w, x.turn);
    } else {
      var s' := Apply(s, x);
      assert forall m :: AttemptsOf(s', m) == AttemptsOf(s, m) + if x.Deliver? && m == x.m then 1 else 0;
    }
  }

  lemma {:induction false} RunGraves(r: Run, i: nat)
    requires IsRun(r) && i < |r.states|
    ensures GravesOk(r.states[i])
  {
    if i > 0 {
      hide Enabled, Apply, GravesOk;
      RunGraves(r, i - 1);
      GravesKept(r.states[i - 1], r.steps[i - 1]);
    }
  }

  /** A listener rejected a delivery of the transaction. */
  ghost predicate Rejected(s: State, id: TxId) {
    exists m :: m in s.dead && s.dead[m].id == id && m in s.refused
  }

  /** The broker gave up a message of the transaction, after as many deliveries as it allows. */
  ghost predicate GivenUp(s: State, id: TxId) {
    exists m :: m in s.dead && s.dead[m].id == id && AttemptsOf(s, m) == 3
  }

  /**
   * No started transaction is lost, whatever crashes and redeliveries happen: it waits on Requests or
   * on Signatures, or it was submitted and its finalization published, or a listener rejected a
   * delivery of it, or the broker gave one up after its last attempt.
   */
  lemma NoTransactionLost(r: Run, i: nat, id: TxId)
    requires IsRun(r) && i < |r.states| && id in r.states[i].started
    ensures var s := r.states[i];
      Queued(s, id, false) || Queued(s, id, true) || DoneIn(s.log, id) || Rejected(s, id) || GivenUp(s, id)
  {
    hide IsRun, QueueOk, WorkersOk, LogOk, RowsOk, Queued, DoneIn;
    RunInv(r, i);
    RunGraves(r, i);
    var s := r.states[i];
    if Buried(s, id) {
      var m :| m in s.dead && s.dead[m].id == id;
      assert m in s.refused || AttemptsOf(s, m) == 3;
    }
  }

  /**
   * Every finalization carries the id, address and nonce of a payload that was begun under that id,
   * and follows a submission of that same payload with a signature made over it.
   */
  lemma FinalizationHasOrigin(r: Run, i: nat, j: nat)
    requires IsRun(r) && i < |r.states| && j < |r.states[i].log| && r.states[i].log[j].Published?
    ensures var s := r.states[i]; var fin := s.log[j].fin;
      && fin.id in s.started
      && fin.address == s.started[fin.id].signable.address
      && fin.nonce == ParseHex(s.started[fin.id].signable.nonce)
      && exists sig :: SubmittedIn(s.log[..j], s.started[fin.id], sig) && (s.started[fin.id].signable, sig) in s.signed
  {
    var s := r.states[i];
    hide IsRun, QueueOk, WorkersOk, RowsOk, NothingLost;
    RunInv(r, i);
    assert ActOk(s, j);
    var payload := s.started[s.log[j].fin.id];
    var sig :| SubmittedIn(s.log[..j], payload, sig);
    var k :| 0 <= k < j && IsSubmission(s.log[..j][k], payload, sig);
    assert ActOk(s, k);
  }

  /** A row marked Finalized was submitted to the chain, and its finalization published after that. */
  lemma FinalizedRowIsTrue(r: Run, i: nat, key: nat)
    requires IsRun(r) && i < |r.states| && key in r.states[i].records && r.states[i].records[key].status.Finalized?
    ensures var row := r.states[i].records[key]; row.result.Some? && FinalizedIn(r.states[i].log, row, row.result.value)
  {
    hide IsRun, QueueOk, WorkersOk, LogOk, NothingLost, FinalizedIn;
    RunInv(r, i);
    assert RowOk(r.states[i], r.states[i].records[key]);
  }

  /** A message is with at most one worker at a time, and stays in the broker while it is. */
  lemma DeliveredOnce(r: Run, i: nat, w: nat, w': nat)
    requires IsRun(r) && i < |r.states| && w in r.states[i].workers && w' in r.states[i].workers
    requires r.states[i].workers[w].m == r.states[i].workers[w'].m
    ensures w == w' && r.states[i].workers[w].m in r.states[i].queue
  {
    hide IsRun, QueueOk, LogOk, RowsOk, NothingLost;
    RunInv(r, i);
    assert WorkOk(r.states[i], r.states[i].workers[w]);
  }
}
