/** Runs in which a delivery report that arrives only once is lost, and one in which an early report is not. */
module LostReports {
  import opened Prelude
  import opened Identifiers
  import opened Deliveries
  import opened DeliveryLog
  import opened Database
  import opened Planning
  import opened Webhook
  import opened Protocol
  import opened ProtocolSafety
  import opened ProtocolRows
  import opened ProtocolCallbacks

  /** No attempt has been sent under the message id yet. */
  ghost predicate IsUnused(db: Db, message: string) {
    forall id, n: nat :: !SentUnder(db, id, message, n)
  }

  /** One worker is sending one delivery, and nothing else goes on. */
  ghost predicate OneBeingSent(s: State, id: DeliveryId) {
    && s.db.rows.Keys == s.db.log.Keys == {id}
    && s.db.rows[id].status == Sending
    && s.threads.Keys == {0, 1}
    && s.threads[0].Matcher?
    && s.threads[1] == Dispatcher(id, s.db.rows[id])
    && s.replay == {}
    && forall i :: 0 <= i < |s.db.log[id]| ==> s.db.log[id][i].attempt.None?
  }

  /** One matching worker has claimed the only event and not planned it yet. */
  ghost predicate OneClaimed(s: State, a: AlertId) {
    && s.db == EMPTY && s.matched == map[] && s.replay == {}
    && a in s.outbox && s.outbox[a] == Claimed
    && s.threads.Keys == {0} && s.threads[0] == Matcher([a], 0, Idle)
  }

  lemma ClaimingOne(s: State, a: AlertId)
    requires s == INIT.(outbox := map[a := Unclaimed])
    ensures Enabled(s, ClaimEvents(0, [a]))
    ensures OneClaimed(Perform(s, ClaimEvents(0, [a])), a)
  {
    assert [a][0] == a && a in [a];
  }

  lemma FirstSteps(a: AlertId) returns (run: seq<Action>)
    ensures Execute(run).Some? && OneClaimed(Execute(run).value, a)
  {
    hide Enabled, Perform, OneClaimed;
    assert Execute([]) == Some(INIT);
    NewAlertStep(a);
    Then([], NewAlert(a));
    ClaimingOne(INIT.(outbox := map[a := Unclaimed]), a);
    Then([] + [NewAlert(a)], ClaimEvents(0, [a]));
    run := [] + [NewAlert(a)] + [ClaimEvents(0, [a])];
  }

  lemma NewAlertStep(a: AlertId)
    ensures INIT.db.rows.Keys == INIT.db.log.Keys && Enabled(INIT, NewAlert(a))
    ensures Perform(INIT, NewAlert(a)) == INIT.(outbox := map[a := Unclaimed])
  {
  }

  function OnlyPlan(a: AlertId, consumer: ConsumerId, endpoint: ChannelEndpoint): DeliveryPlan {
    DeliveryPlan(a, consumer, endpoint.channel, endpoint.address, 0, [], STANDARD_ATTEMPTS)
  }

  ghost predicate OnePlanned(s: State, plan: DeliveryPlan, id: DeliveryId) {
    && s.db == Inserted(EMPTY, id, plan)
    && s.replay == {} && s.threads.Keys == {0} && s.threads[0].Matcher?
  }

  lemma PlannedSteps(a: AlertId, consumer: ConsumerId, endpoint: ChannelEndpoint, id: DeliveryId)
    returns (run: seq<Action>)
    ensures Execute(run).Some? && OnePlanned(Execute(run).value, OnlyPlan(a, consumer, endpoint), id)
  {
    hide Execute;
    run := FirstSteps(a);
    var preferences := map[consumer := DeliveryPreference(All, [endpoint])];
    var plan := [OnlyPlan(a, consumer, endpoint)];
    assert ValidPreferences(preferences) && WellFormedPlan(a, preferences, plan);
    Then(run, Match(0, preferences, plan));
    run := run + [Match(0, preferences, plan)];
    Then(run, InsertNext(0, id));
    run := run + [InsertNext(0, id)];
  }

  /** A run at whose end one worker is sending the only delivery. */
  lemma SendingRun(a: AlertId, consumer: ConsumerId, endpoint: ChannelEndpoint, id: DeliveryId)
    returns (run: seq<Action>)
    ensures Execute(run).Some? && OneBeingSent(Execute(run).value, id)
  {
    hide Execute;
    run := PlannedSteps(a, consumer, endpoint, id);
    Then(run, Select(1, id));
    run := run + [Select(1, id)];
    Then(run, Start(1));
    run := run + [Start(1)];
    var s := Execute(run).value;
    assert s.db.log[id] == [LogEntry(DeliveryRequested, 1, None), LogEntry(DeliveryStarted, 2, None)];
  }

  lemma NothingSentYet(s: State, id: DeliveryId, message: string)
    requires OneBeingSent(s, id)
    ensures IsUnused(s.db, message)
  {
  }

  lemma UnusedIsMissed(db: Db, message: string)
    requires IsUnused(db, message)
    ensures !exists id :: Finds(db, message, id)
  {
    hide SentUnder;
  }

  /** The tables once the worker has recorded its send under the message id. */
  lemma SendIsFound(db: Db, id: DeliveryId, row: DeliveryRow, message: string)
    requires db.rows.Keys == db.log.Keys && id in db.rows && db.rows[id] == row && row.status == Sending
    requires IsUnused(db, message)
    ensures var after := WriteBack(db, id, Ended(row, Accepted(Some(message))));
            && id in after.rows && after.rows[id].status == Sent
            && Finds(after, message, id)
  {
    var after := WriteBack(db, id, Ended(row, Accepted(Some(message))));
    var log, n := db.log[id], row.attemptCount;
    var entry := Succeeded(row, Some(message)).value.entry;
    assert after.log[id] == log + [entry];
    assert after.log[id][|log|] == entry;
    assert SentUnder(after, id, message, n);
    forall e, k: nat | SentUnder(after, e, message, k) ensures k <= n {
      var i :| 0 <= i < |after.log[e]| && after.log[e][i].attempt == Some(DeliveryAttempt(k, SentAs(Some(message))));
      assert e == id && i == |log| by {
        assert !SentUnder(db, e, message, k);
      }
    }
  }

  function Report(channel: ChannelType, eventId: string, message: string): WebhookEvent {
    WebhookEvent(channel, eventId, message, ReportsDelivered)
  }

  // ---- What it means to be lost ----

  /** The event arrived first under its key, and no run that goes on from here ever writes it to a delivery,
      whatever repeats of it arrive. */
  ghost predicate LostIn(run: seq<Action>, event: WebhookEvent)
    requires Execute(run).Some?
  {
    && FirstEvent(run, KeyOf(event)) == Some(event)
    && forall more :: Execute(run + more).Some? ==> !Happened(run + more, KeyOf(event), Writing)
  }

  /** A run that ends with the delivery on record as sent under the report's message id, and the report lost. */
  ghost predicate SentButLost(run: seq<Action>, id: DeliveryId, event: WebhookEvent) {
    && Execute(run).Some?
    && var db := Execute(run).value.db;
       && id in db.rows && db.rows[id].status == Sent
       && Finds(db, event.providerMessageId, id)
       && LostIn(run, event)
  }

  /** A run in which the report has arrived while the delivery is still being sent. */
  ghost predicate ArrivedEarly(run: seq<Action>, id: DeliveryId, event: WebhookEvent) {
    && Execute(run).Some?
    && KeyOf(event) in ArrivedKeys(run)
    && id in Execute(run).value.db.rows && Execute(run).value.db.rows[id].status == Sending
  }

  ghost predicate EndsDelivered(run: seq<Action>, id: DeliveryId) {
    && Execute(run).Some?
    && id in Execute(run).value.db.rows && Execute(run).value.db.rows[id].status == Delivered
  }

  lemma {:induction false} FirstThenMore(front: seq<Action>, t: ThreadId, event: WebhookEvent, more: seq<Action>)
    requires KeyOf(event) !in ArrivedKeys(front)
    ensures FirstEvent(front + [Arrive(t, event)] + more, KeyOf(event)) == Some(event)
  {
    var whole := front + [Arrive(t, event)] + more;
    assert whole[..|front| + 1] == front + [Arrive(t, event)];
    assert (front + [Arrive(t, event)])[..|front|] == front;
    ArrivedHasFirst(front, KeyOf(event));
    FirstStaysFirst(whole, |front| + 1, KeyOf(event));
  }

  /** A report that has confirmed nothing by the time its handler is gone is lost. */
  lemma GoneIsLost(run: seq<Action>, event: WebhookEvent)
    requires Execute(run).Some? && FirstEvent(run, KeyOf(event)) == Some(event) && event.status.ReportsDelivered?
    requires !InFlight(Execute(run).value, KeyOf(event))
    requires forall id :: id in Execute(run).value.db.rows ==> Execute(run).value.db.rows[id].status != Delivered
    ensures LostIn(run, event)
  {
    hide Execute, Inv, FirstEvent, InFlight, Happened, ArrivedKeys, ConfirmsAt;
    var key := KeyOf(event);
    ArrivedHasFirst(run, key);
    forall more | Execute(run + more).Some? ensures !Happened(run + more, key, Writing) {
      GoneForGood(run, more, key);
      if Happened(run, key, Writing) {
        var confirmed := WriteConfirms(run, key);
        ConfirmedAtTheEnd(run, key, confirmed);
      }
    }
  }

  lemma NoHandlerLeft(s: State, key: ReplayKey)
    requires s.threads.Keys <= {0, 1}
    requires forall t :: t in s.threads ==> s.threads[t].Matcher? || s.threads[t].Dispatcher?
    ensures !InFlight(s, key)
  {
  }

  // ---- An early report can be lost ----

  /** The report arrives while the delivery is being sent and is looked up before the send is recorded. */
  lemma EarlyLookupLoses(
    a: AlertId, consumer: ConsumerId, endpoint: ChannelEndpoint, id: DeliveryId, eventId: string, message: string)
    returns (run: seq<Action>)
    ensures SentButLost(run, id, Report(endpoint.channel, eventId, message))
  {
    hide Execute, Inv, Finds, SentUnder, IsUnused;
    var event := Report(endpoint.channel, eventId, message);
    run := SendingRun(a, consumer, endpoint, id);
    var s := Execute(run).value;
    NothingSentYet(s, id, message);
    UnusedIsMissed(s.db, message);
    ReplayIsArrivedKeys(run);
    var first := run;
    Then(run, Arrive(2, event));
    run := run + [Arrive(2, event)];
    Then(run, Miss(2));
    run := run + [Miss(2)];
    assert Execute(run).value.threads == s.threads;
    SendIsFound(s.db, id, s.db.rows[id], message);
    Then(run, Record(1, Accepted(Some(message))));
    run := run + [Record(1, Accepted(Some(message)))];
    var rest := [Miss(2), Record(1, Accepted(Some(message)))];
    assert run == first + [Arrive(2, event)] + rest;
    FirstThenMore(first, 2, event, rest);
    NoHandlerLeft(Execute(run).value, KeyOf(event));
    GoneIsLost(run, event);
  }

  /** The report arrives after the send was recorded, and its handler dies after the guard. */
  lemma DyingHandlerLoses(
    a: AlertId, consumer: ConsumerId, endpoint: ChannelEndpoint, id: DeliveryId, eventId: string, message: string)
    returns (run: seq<Action>)
    ensures SentButLost(run, id, Report(endpoint.channel, eventId, message))
  {
    hide Execute, Inv, Finds, SentUnder, IsUnused;
    var event := Report(endpoint.channel, eventId, message);
    run := SendingRun(a, consumer, endpoint, id);
    var s := Execute(run).value;
    NothingSentYet(s, id, message);
    SendIsFound(s.db, id, s.db.rows[id], message);
    Then(run, Record(1, Accepted(Some(message))));
    run := run + [Record(1, Accepted(Some(message)))];
    ReplayIsArrivedKeys(run);
    var first := run;
    Then(run, Arrive(2, event));
    run := run + [Arrive(2, event)];
    Then(run, Stop(2));
    run := run + [Stop(2)];
    assert run == first + [Arrive(2, event)] + [Stop(2)];
    FirstThenMore(first, 2, event, [Stop(2)]);
    NoHandlerLeft(Execute(run).value, KeyOf(event));
    GoneIsLost(run, event);
  }

  /** The report arrives while the delivery is being sent, but is looked up after the send is recorded. */
  lemma LateLookupConfirms(
    a: AlertId, consumer: ConsumerId, endpoint: ChannelEndpoint, id: DeliveryId, eventId: string, message: string)
    returns (early: seq<Action>, run: seq<Action>)
    ensures ArrivedEarly(early, id, Report(endpoint.channel, eventId, message))
    ensures early <= run && EndsDelivered(run, id)
  {
    hide Execute, Inv, Finds, SentUnder, IsUnused, WriteBack, AppliedEvent, Ended, ArrivedKeys, ValidPreferences,
      WellFormedPlan, KeyTaken, Distinct, AllUnclaimed, GateOpen, Started;
    var event := Report(endpoint.channel, eventId, message);
    run := SendingRun(a, consumer, endpoint, id);
    var s := Execute(run).value;
    NothingSentYet(s, id, message);
    ReplayIsArrivedKeys(run);
    Then(run, Arrive(2, event));
    run := run + [Arrive(2, event)];
    early := run;
    ReplayIsArrivedKeys(early);
    SendIsFound(s.db, id, s.db.rows[id], message);
    Then(run, Record(1, Accepted(Some(message))));
    run := run + [Record(1, Accepted(Some(message)))];
    Then(run, Locate(2, id));
    run := run + [Locate(2, id)];
    Then(run, Load(2));
    run := run + [Load(2)];
    Then(run, Apply(2));
    DeliveryReportsStick(run, 2);
    run := run + [Apply(2)];
  }
}
