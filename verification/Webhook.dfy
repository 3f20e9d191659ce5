/** Verified provider callbacks and what they do to a loaded delivery. */
module Webhook {
  import opened Prelude
  import opened Identifiers
  import opened Deliveries
  import opened DeliveryLog
  import opened Database

  datatype ProviderStatus = ReportsDelivered | ReportsFailed(retryable: bool, reason: string)

  datatype WebhookEvent = WebhookEvent(
    channel: ChannelType, providerEventId: string, providerMessageId: string, status: ProviderStatus)

  /** Replays are recognised per channel. */
  datatype ReplayKey = ReplayKey(channel: ChannelType, providerEventId: string)

  function KeyOf(event: WebhookEvent): ReplayKey {
    ReplayKey(event.channel, event.providerEventId)
  }

  /** The guard tells two events apart exactly by their channel and their event id. */
  lemma KeysAgreeIff(e: WebhookEvent, f: WebhookEvent)
    ensures KeyOf(e) == KeyOf(f) <==> e.channel == f.channel && e.providerEventId == f.providerEventId
  {
  }

  function AppliedEvent(row: DeliveryRow, status: ProviderStatus): Transition {
    match status
    case ReportsDelivered => Confirmed(row)
    case ReportsFailed(retryable, reason) => Failed(row, retryable, reason)
  }

  /** The delivery has a successful attempt numbered `n` under this provider message id. */
  ghost predicate SentUnder(db: Db, id: DeliveryId, message: string, n: nat) {
    && id in db.log
    && exists i :: 0 <= i < |db.log[id]|
        && db.log[id][i].attempt == Some(DeliveryAttempt(n, SentAs(Some(message))))
  }

  /** The lookup by provider message id: a delivery whose matching attempt number is the largest. */
  ghost predicate Finds(db: Db, message: string, id: DeliveryId) {
    exists n: nat :: SentUnder(db, id, message, n) && forall e, k: nat :: SentUnder(db, e, message, k) ==> k <= n
  }

  lemma FoundWasSent(db: Db, message: string, id: DeliveryId)
    requires Consistent(db) && Finds(db, message, id)
    ensures id in db.rows && HasBeenSent(db.log[id])
  {
    var n: nat :| SentUnder(db, id, message, n);
    var i :| 0 <= i < |db.log[id]| && db.log[id][i].attempt == Some(DeliveryAttempt(n, SentAs(Some(message))));
    assert IsSentEntry(db.log[id][i]);
  }

  /** No callback can fail a delivery it can find: by then the delivery is past sending. */
  lemma FailureReportsAreRejected(db: Db, message: string, id: DeliveryId, retryable: bool, reason: string)
    requires Consistent(db) && Finds(db, message, id)
    ensures AppliedEvent(db.rows[id], ReportsFailed(retryable, reason)).Failure?
  {
    FoundWasSent(db, message, id);
    SentIffRecorded(db.rows[id], db.log[id]);
  }
}
