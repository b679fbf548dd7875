/**
 * The payload of a `transaction.update` event, assembled from the transaction object
 * that the SDK mutates (src/transactions/transactions.service.ts).
 */
module Payloads {
  import opened Wrappers

  datatype TransactionStatus = Idle | Unapproved | Running | Aborted | Failed | Rejected | Succeeded

  /** Statuses with which a transaction is over. */
  predicate Terminal(status: TransactionStatus) {
    Erred(status) || status.Succeeded?
  }

  predicate Erred(status: TransactionStatus) {
    status.Aborted? || status.Failed? || status.Rejected?
  }

  predicate InBlock(status: TransactionStatus) {
    status.Succeeded? || status.Failed?
  }

  predicate Unsigned(status: TransactionStatus) {
    status.Rejected? || status.Unapproved? || status.Idle?
  }

  datatype Tags = Single(tag: string) | Batch(tags: seq<string>)

  /** What the SDK object shows at the moment of a callback. */
  datatype Snapshot = Snapshot(
    status: TransactionStatus,
    tags: Tags,
    txHash: Option<string>,
    blockHash: Option<string>,
    blockNumber: Option<string>,
    error: Option<string>)

  datatype Payload = Payload(
    status: TransactionStatus,
    tags: Tags,
    transactionHash: Option<string>,
    blockHash: Option<string>,
    blockNumber: Option<string>,
    hasResult: bool,
    error: Option<string>)

  /** The SDK's own promise about the fields it fills in for each status. */
  predicate Complete(t: Snapshot) {
    && (InBlock(t.status) ==> t.blockNumber.Some?)
    && (Erred(t.status) ==> t.error.Some?)
  }

  /**
   * The payload a snapshot must give: a hash once the transaction was signed, block data once it
   * is in a block, a result or an error once it ended. None where a field that the code
   * dereferences is missing, so that the callback throws.
   */
  function PayloadOf(t: Snapshot): (r: Option<Payload>)
    ensures r.Some? <==> Complete(t)
    ensures r.Some? ==> r.value.status == t.status
  {
    if !Complete(t) then None
    else
      var inBlock := InBlock(t.status);
      Some(Payload(
             t.status,
             t.tags,
             if Unsigned(t.status) then None else t.txHash,
             if inBlock then t.blockHash else None,
             if inBlock then t.blockNumber else None,
             t.status == Succeeded,
             if Erred(t.status) then t.error else None))
  }

  /** `assemblePayload`: start from the status and add fields in the order the service does. */
  method AssemblePayload(t: Snapshot) returns (r: Option<Payload>)
    ensures r == PayloadOf(t)
  {
    var payload := Payload(t.status, t.tags, None, None, None, false, None);
    if !Unsigned(t.status) {
      payload := payload.(transactionHash := t.txHash);
    }
    if InBlock(t.status) {
      payload := payload.(blockHash := t.blockHash);
      if t.blockNumber.None? {
        return None;
      }
      payload := payload.(blockNumber := t.blockNumber);
      if t.status == Succeeded {
        payload := payload.(hasResult := true);
      }
    }
    if Erred(t.status) {
      if t.error.None? {
        return None;
      }
      payload := payload.(error := t.error);
    }
    r := Some(payload);
  }

  /**
   * Field by field, and by status: the hash is the snapshot's once the transaction was signed, block
   * data are the snapshot's once it is in a block, the error is the snapshot's if it ended in one.
   */
  lemma PayloadFields(t: Snapshot)
    ensures PayloadOf(t).None? <==>
            (t.status in {Succeeded, Failed} && t.blockNumber.None?)
            || (t.status in {Aborted, Failed, TransactionStatus.Rejected} && t.error.None?)
    ensures PayloadOf(t).Some? ==>
              var p := PayloadOf(t).value;
              && p.status == t.status && p.tags == t.tags
              && p.transactionHash == (if t.status in {Running, Aborted, Failed, Succeeded} then t.txHash else None)
              && p.blockHash == (if t.status in {Succeeded, Failed} then t.blockHash else None)
              && p.blockNumber == (if t.status in {Succeeded, Failed} then t.blockNumber else None)
              && p.error == (if t.status in {Aborted, Failed, TransactionStatus.Rejected} then t.error else None)
              && (p.hasResult <==> t.status == Succeeded)
  {
  }

  /** Exactly these four statuses end a transaction. */
  lemma TerminalStatuses(status: TransactionStatus)
    ensures Terminal(status) <==> status in {Aborted, Failed, TransactionStatus.Rejected, Succeeded}
    ensures !Terminal(status) <==> status in {Idle, Unapproved, Running}
  {
  }

  /**
   * Receivers can tell the outcome from the fields alone: an ended transaction carries an error or
   * a result, exactly one of them, and a running one carries neither.
   */
  lemma PayloadShowsOutcome(t: Snapshot)
    requires Complete(t)
    ensures var p := PayloadOf(t).value;
      && (Terminal(t.status) <==> (p.hasResult || p.error.Some?))
      && !(p.hasResult && p.error.Some?)
      && (p.blockNumber.Some? ==> Terminal(t.status))
  {
  }
}
