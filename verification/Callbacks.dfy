/** The callback endpoint from the replay guard to the optimistic write, and why a provider
    may repeat itself as often as it likes. */
module Callbacks {
  import opened Prelude
  import opened Identifiers
  import opened Deliveries
  import opened DeliveryLog
  import opened Database
  import opened Webhook
  import opened Protocol
  import opened Repository
  import opened Connections
  import ProtocolDispatch

  class ReplayGuard {
    var seen: set<ReplayKey>

    constructor ()
      ensures seen == {}
    {
      seen := {};
    }

    /** True the first time a channel's event id is presented, false ever after. */
    method RecordIfNew(key: ReplayKey) returns (isNew: bool)
      modifies this
      ensures isNew <==> key !in old(seen)
      ensures seen == old(seen) + {key}
    {
      isNew := key !in seen;
      seen := seen + {key};
    }
  }

  /** What a callback can see and change. */
  datatype Stage = Stage(db: Db, seen: set<ReplayKey>)

  /** An answer the lookup by provider message id can give. */
  ghost predicate Answers(db: Db, message: string, found: Option<DeliveryId>) {
    match found
    case Some(id) => id in db.rows && Finds(db, message, id)
    case None => !exists id :: Finds(db, message, id)
  }

  /** The effect of one callback, handled without interruption or fault, given the lookup's answer. */
  ghost predicate HandlesFound(before: Stage, event: WebhookEvent, found: Option<DeliveryId>, after: Stage) {
    if KeyOf(event) in before.seen then after == before
    else
      && after.seen == before.seen + {KeyOf(event)}
      && before.db.rows.Keys == before.db.log.Keys
      && Answers(before.db, event.providerMessageId, found)
      && after.db == match found
                     case Some(id) => WriteBack(before.db, id, AppliedEvent(before.db.rows[id], event.status))
                     case None => before.db
  }

  ghost predicate Handles(before: Stage, event: WebhookEvent, after: Stage) {
    exists found :: HandlesFound(before, event, found, after)
  }

  /** An event of this channel with this event id has been presented. */
  predicate Seen(seen: set<ReplayKey>, event: WebhookEvent) {
    ReplayKey(event.channel, event.providerEventId) in seen
  }

  /** A database fault ended the handler: nothing is written, but the event may be marked as seen. */
  ghost predicate Breaks(before: Stage, event: WebhookEvent, after: Stage) {
    && after.db == before.db
    && (after.seen == before.seen || after.seen == before.seen + {KeyOf(event)})
  }

  /** Turns a verified event into the transition it asks for, on the loaded delivery. */
  method ApplyWebhookEvent(delivery: Delivery, event: WebhookEvent)
    returns (result: Result<LogEntry, TransitionError>)
    modifies delivery
    ensures Follows(AppliedEvent(old(delivery.Row()), event.status), old(delivery.Row()), delivery.Row(), result)
    ensures event.status.ReportsDelivered? ==>
              && (result.Success? <==> old(delivery.status) == Sent)
              && (result.Success? ==> delivery.status == Delivered && result.value.event == DeliveryDelivered)
    ensures event.status.ReportsFailed? ==>
              && (result.Success? <==> old(delivery.status) == Sending)
              && (result.Success? ==>
                    && (delivery.status == Retrying <==>
                          event.status.retryable && old(delivery.attemptCount) < delivery.plan.maxAttempts)
                    && result.value.attempt == Some(DeliveryAttempt(
                         old(delivery.attemptCount), FailedWith(event.status.retryable, event.status.reason))))
    ensures result.Failure? ==> delivery.Row() == old(delivery.Row())
  {
    match event.status
    case ReportsDelivered =>
      result := delivery.RecordDelivered();
    case ReportsFailed(retryable, reason) =>
      result := delivery.RecordFailure(retryable, reason);
  }

  /** The sequence verify, deduplicate, look up, apply, write. A repeat, an unknown delivery, a rejected transition
      and a conflicting write are all answered with success, so the provider stops retrying; a database fault is
      answered with an error. */
  method ReceiveWebhook(
    connection: Connection, guard: ReplayGuard, repository: DeliveryRepository, event: WebhookEvent)
    returns (ok: bool, ghost found: Option<DeliveryId>)
    requires repository.Valid()
    modifies connection, guard, repository`rows, repository`log
    ensures ok ==> HandlesFound(old(Stage(repository.Tables(), guard.seen)), event, found,
                                Stage(repository.Tables(), guard.seen))
    ensures ok && Seen(old(guard.seen), event) ==>
              guard.seen == old(guard.seen) && repository.Tables() == old(repository.Tables())
    ensures ok && !Seen(old(guard.seen), event) ==>
              Seen(guard.seen, event) && Answers(old(repository.Tables()), event.providerMessageId, found)
    ensures !ok ==> Breaks(old(Stage(repository.Tables(), guard.seen)), event, Stage(repository.Tables(), guard.seen))
  {
    hide Consistent, Finds, SentUnder, Distinct;
    ghost var start := repository.Tables();
    ConsistentKeys(start);
    found := None;
    ok := connection.RoundTrip();
    if !ok {
      return;
    }
    var isNew := guard.RecordIfNew(KeyOf(event));
    if !isNew {
      return;
    }
    ok := connection.RoundTrip();
    if !ok {
      return;
    }
    var delivery := repository.FindByProviderMessageId(event.providerMessageId);
    assert repository.Tables() == start;
    if delivery.None? {
      NothingFound(start, event.providerMessageId);
      return;
    }
    found := Some(delivery.value.id);
    var result := ApplyWebhookEvent(delivery.value, event);
    if result.Failure? {
      return;
    }
    ok := connection.RoundTrip();
    if ok {
      var outcome := repository.ApplyTransition(delivery.value, result.value);
    }
  }

  lemma NothingFound(db: Db, message: string)
    requires forall id, n: nat :: !SentUnder(db, id, message, n)
    ensures !exists id :: Finds(db, message, id)
  {
    hide SentUnder;
  }

  /** An uninterrupted handler changes the tables if and only if its key is new, the report is of delivery, and the
      lookup finds a delivery that is on record as sent and not yet confirmed. */
  lemma FirstArrivalDecides(before: Stage, event: WebhookEvent, found: Option<DeliveryId>, after: Stage)
    requires Consistent(before.db) && HandlesFound(before, event, found, after)
    ensures after.db != before.db <==>
              && KeyOf(event) !in before.seen
              && event.status == ReportsDelivered
              && found.Some?
              && found.value in before.db.rows
              && before.db.rows[found.value].status == Sent
    ensures after.db != before.db ==>
              found.value in after.db.rows && after.db.rows[found.value].status == Delivered
  {
    if KeyOf(event) !in before.seen && found.Some? {
      ProtocolDispatch.FoundIsSentOrDelivered(before.db, event.providerMessageId, found.value);
      WriteBackShows(before.db, found.value, event.status);
    }
  }

  lemma WriteBackShows(db: Db, id: DeliveryId, status: ProviderStatus)
    requires db.rows.Keys == db.log.Keys && id in db.rows && db.rows[id].status in {Sent, Delivered}
    ensures var after := WriteBack(db, id, AppliedEvent(db.rows[id], status));
            if status == ReportsDelivered && db.rows[id].status == Sent
            then after != db && id in after.rows && after.rows[id].status == Delivered
            else after == db
  {
  }

  /** The error answer asks the provider to retry; if the guard had been passed, the retry changes nothing. */
  lemma RetryAfterFaultIsIgnored(before: Stage, event: WebhookEvent, broken: Stage, after: Stage)
    requires Breaks(before, event, broken) && Handles(broken, event, after)
    ensures KeyOf(event) in broken.seen ==> after == broken && after.db == before.db
  {
  }

  // ---- Streams of callbacks between worker steps ----

  /** A callback, or some other step of the engine on the tables. */
  datatype Act = Callback(event: WebhookEvent) | Other(step: nat)

  ghost predicate Acts(others: (nat, Db, Db) -> bool, before: Stage, act: Act, after: Stage) {
    match act
    case Callback(event) => Handles(before, event, after)
    case Other(step) => after.seen == before.seen && others(step, before.db, after.db)
  }

  ghost predicate Runs(others: (nat, Db, Db) -> bool, before: Stage, acts: seq<Act>, after: Stage)
    decreases |acts|
  {
    if |acts| == 0 then after == before
    else exists middle :: Acts(others, before, acts[0], middle) && Runs(others, middle, acts[1..], after)
  }

  /** The stream with every repeated callback dropped, and everything else in place. */
  function FirstOccurrences(acts: seq<Act>, seen: set<ReplayKey>): seq<Act> {
    if |acts| == 0 then []
    else
      match acts[0]
      case Other(_) => [acts[0]] + FirstOccurrences(acts[1..], seen)
      case Callback(event) =>
        if KeyOf(event) in seen then FirstOccurrences(acts[1..], seen)
        else [acts[0]] + FirstOccurrences(acts[1..], seen + {KeyOf(event)})
  }

  /** Whatever else the engine does in between, a stream of callbacks with any number of repeats leads
      exactly where the stream of first occurrences leads. */
  lemma {:induction false} RepeatsChangeNothing(
    others: (nat, Db, Db) -> bool, before: Stage, acts: seq<Act>, after: Stage)
    ensures Runs(others, before, acts, after) <==>
            Runs(others, before, FirstOccurrences(acts, before.seen), after)
    decreases |acts|
  {
    hide Handles;
    if |acts| > 0 {
      var act, rest := acts[0], acts[1..];
      if act.Callback? && KeyOf(act.event) in before.seen {
        RepeatIsIgnored(before, act.event);
        RepeatsChangeNothing(others, before, rest, after);
      } else {
        var seen := if act.Callback? then before.seen + {KeyOf(act.event)} else before.seen;
        var kept := FirstOccurrences(rest, seen);
        assert FirstOccurrences(acts, before.seen) == [act] + kept;
        assert ([act] + kept)[1..] == kept;
        forall middle | Acts(others, before, act, middle)
          ensures Runs(others, middle, rest, after) <==> Runs(others, middle, kept, after)
        {
          SeenAfter(others, before, act, middle);
          RepeatsChangeNothing(others, middle, rest, after);
        }
      }
    }
  }

  lemma RepeatIsIgnored(before: Stage, event: WebhookEvent)
    requires KeyOf(event) in before.seen
    ensures forall after :: Handles(before, event, after) <==> after == before
  {
    assert HandlesFound(before, event, None, before);
  }

  lemma SeenAfter(others: (nat, Db, Db) -> bool, before: Stage, act: Act, after: Stage)
    requires Acts(others, before, act, after)
    requires act.Callback? ==> KeyOf(act.event) !in before.seen
    ensures after.seen == if act.Callback? then before.seen + {KeyOf(act.event)} else before.seen
  {
  }
}
