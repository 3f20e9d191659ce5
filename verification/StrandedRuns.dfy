/** Runs that end with a delivery stuck, an event abandoned, or a report applied to the wrong one of two deliveries. */
module StrandedRuns {
  import opened Prelude
  import opened Identifiers
  import opened Deliveries
  import opened DeliveryLog
  import opened Database
  import opened Planning
  import opened Webhook
  import opened Protocol
  import opened ProtocolSafety
  import opened ProtocolRows
  import opened ProtocolCallbacks
  import opened ProtocolOutbox
  import opened LostReports

  // ---- One delivery ----

  /** The worker dies between claiming the only delivery and recording its outcome. */
  lemma StuckRun(a: AlertId, consumer: ConsumerId, endpoint: ChannelEndpoint, id: DeliveryId)
    returns (run: seq<Action>)
    ensures Execute(run).Some? && IsStuck(Execute(run).value, id)
  {
    hide Execute;
    run := SendingRun(a, consumer, endpoint, id);
    Then(run, Stop(1));
    run := run + [Stop(1)];
  }

  // ---- A consumer with two channels ----

  function PlanAt(
    a: AlertId, consumer: ConsumerId, strategy: DeliveryStrategy, endpoint: ChannelEndpoint, index: nat): DeliveryPlan
  {
    DeliveryPlan(a, consumer, endpoint.channel, endpoint.address, TierOf(strategy, index), [], STANDARD_ATTEMPTS)
  }

  /** The worker has planned two deliveries and inserted the first. */
  ghost predicate HalfPlanned(s: State, a: AlertId, first: DeliveryPlan, second: DeliveryPlan, id: DeliveryId) {
    && IsClaimed(s, a)
    && s.db == Inserted(EMPTY, id, first)
    && a in s.matched && s.matched[a].plan == [first, second] && s.matched[a].ids == [id]
    && s.replay == {}
    && s.threads.Keys == {0} && s.threads[0] == Matcher([a], 0, Inserting(1))
  }

  ghost predicate JustPlanned(s: State, a: AlertId, first: DeliveryPlan, second: DeliveryPlan) {
    && IsClaimed(s, a)
    && s.db == EMPTY
    && a in s.matched && s.matched[a].plan == [first, second] && s.matched[a].ids == []
    && s.replay == {}
    && s.threads.Keys == {0} && s.threads[0] == Matcher([a], 0, Inserting(0))
  }

  lemma PairCanBePlanned(
    s: State, a: AlertId, consumer: ConsumerId, strategy: DeliveryStrategy, one: ChannelEndpoint, two: ChannelEndpoint)
    requires OneClaimed(s, a) && one.channel != two.channel
    ensures var (preferences, plan) := Pair(a, consumer, strategy, one, two);
            && s.db.rows.Keys == s.db.log.Keys
            && Enabled(s, Match(0, preferences, plan))
            && JustPlanned(Perform(s, Match(0, preferences, plan)), a, plan[0], plan[1])
  {
    var channels := ChannelsOf([one, two]);
    assert channels == [one.channel, two.channel];
    assert ValidPreference(DeliveryPreference(strategy, [one, two]));
  }

  function Pair(
    a: AlertId, consumer: ConsumerId, strategy: DeliveryStrategy, one: ChannelEndpoint,
    two: ChannelEndpoint): (Preferences, seq<DeliveryPlan>)
  {
    (map[consumer := DeliveryPreference(strategy, [one, two])],
     [PlanAt(a, consumer, strategy, one, 0), PlanAt(a, consumer, strategy, two, 1)])
  }

  lemma FirstCanBeInserted(s: State, a: AlertId, first: DeliveryPlan, second: DeliveryPlan, id: DeliveryId)
    requires JustPlanned(s, a, first, second)
    ensures s.db.rows.Keys == s.db.log.Keys && Enabled(s, InsertNext(0, id))
    ensures HalfPlanned(Perform(s, InsertNext(0, id)), a, first, second, id)
  {
  }

  lemma HalfPlannedRun(
    a: AlertId, consumer: ConsumerId, strategy: DeliveryStrategy, one: ChannelEndpoint, two: ChannelEndpoint,
    id: DeliveryId) returns (run: seq<Action>)
    requires one.channel != two.channel
    ensures Execute(run).Some?
    ensures HalfPlanned(Execute(run).value, a, PlanAt(a, consumer, strategy, one, 0),
                        PlanAt(a, consumer, strategy, two, 1), id)
  {
    hide Execute, Enabled, Perform, OneClaimed, JustPlanned, HalfPlanned, PlanAt;
    run := FirstSteps(a);
    var (preferences, plan) := Pair(a, consumer, strategy, one, two);
    PairCanBePlanned(Execute(run).value, a, consumer, strategy, one, two);
    Then(run, Match(0, preferences, plan));
    run := run + [Match(0, preferences, plan)];
    FirstCanBeInserted(Execute(run).value, a, plan[0], plan[1], id);
    Then(run, InsertNext(0, id));
    run := run + [InsertNext(0, id)];
  }

  /** The event is abandoned with part of its plan missing. */
  ghost predicate IsAbandonedMidway(s: State, a: AlertId) {
    IsAbandoned(s, a) && a in s.matched && |s.matched[a].ids| < |s.matched[a].plan|
  }

  /** A fault between the two inserts: the first channel's delivery is on record, the second's never will be. */
  lemma AbandonedRun(
    a: AlertId, consumer: ConsumerId, strategy: DeliveryStrategy, one: ChannelEndpoint, two: ChannelEndpoint,
    id: DeliveryId) returns (run: seq<Action>)
    requires one.channel != two.channel
    ensures Execute(run).Some? && IsAbandonedMidway(Execute(run).value, a) && id in RowsOf(Execute(run).value, a)
  {
    hide Execute;
    run := HalfPlannedRun(a, consumer, strategy, one, two, id);
    Then(run, Stop(0));
    run := run + [Stop(0)];
  }

  ghost predicate BothPlanned(
    s: State, first: DeliveryPlan, second: DeliveryPlan, id: DeliveryId, other: DeliveryId)
  {
    && s.db == Inserted(Inserted(EMPTY, id, first), other, second)
    && s.replay == {}
    && s.threads.Keys == {0} && s.threads[0].Matcher?
  }

  lemma SecondCanBeInserted(
    s: State, a: AlertId, first: DeliveryPlan, second: DeliveryPlan, id: DeliveryId, other: DeliveryId)
    requires HalfPlanned(s, a, first, second, id) && id != other && first.channel != second.channel
    ensures s.db.rows.Keys == s.db.log.Keys && Enabled(s, InsertNext(0, other))
    ensures BothPlanned(Perform(s, InsertNext(0, other)), first, second, id, other)
  {
    hide IdempotencyKey;
    KeyDeterminesEndpoint(first, second);
  }

  lemma BothPlannedRun(
    a: AlertId, consumer: ConsumerId, strategy: DeliveryStrategy, one: ChannelEndpoint, two: ChannelEndpoint,
    id: DeliveryId, other: DeliveryId) returns (run: seq<Action>)
    requires one.channel != two.channel && id != other
    ensures Execute(run).Some?
    ensures BothPlanned(Execute(run).value, PlanAt(a, consumer, strategy, one, 0),
                        PlanAt(a, consumer, strategy, two, 1), id, other)
  {
    hide Execute, Enabled, Perform, HalfPlanned, BothPlanned;
    run := HalfPlannedRun(a, consumer, strategy, one, two, id);
    SecondCanBeInserted(
      Execute(run).value, a, PlanAt(a, consumer, strategy, one, 0), PlanAt(a, consumer, strategy, two, 1), id, other);
    Then(run, InsertNext(0, other));
    run := run + [InsertNext(0, other)];
  }

  /** Claiming a delivery that is ready. */
  lemma ClaimNow(run: seq<Action>, t: ThreadId, id: DeliveryId) returns (longer: seq<Action>)
    requires Execute(run).Some?
    requires var s := Execute(run).value;
             t !in s.threads && id in s.db.rows && Waiting(s.db.rows[id].status) && GateOpen(s.db, id)
    ensures var s := Execute(run).value;
            && s.db.rows.Keys == s.db.log.Keys
            && Execute(longer) == Some(s.(
                 db := CompareAndSet(s.db, id, Started(s.db.rows[id]).value),
                 threads := s.threads[t := Dispatcher(id, Started(s.db.rows[id]).value.row)]))
  {
    hide Execute, GateOpen, CompareAndSet;
    var s := Execute(run).value;
    Then(run, Select(t, id));
    Then(run + [Select(t, id)], Start(t));
    longer := run + [Select(t, id)] + [Start(t)];
    assert s.threads[t := Candidate(id)][t := Dispatcher(id, Started(s.db.rows[id]).value.row)] ==
           s.threads[t := Dispatcher(id, Started(s.db.rows[id]).value.row)];
  }

  /** A stuck delivery with a fallback behind it. */
  ghost predicate IsStuckBefore(s: State, id: DeliveryId, later: DeliveryId) {
    && IsStuck(s, id)
    && later in s.db.rows && SameChain(s.db.rows[later].plan, s.db.rows[id].plan)
    && s.db.rows[later].plan.tier > s.db.rows[id].plan.tier
  }

  /** The worker sending the first channel dies: the second channel is on record and can never be tried. */
  lemma StuckChainRun(
    a: AlertId, consumer: ConsumerId, one: ChannelEndpoint, two: ChannelEndpoint, id: DeliveryId, later: DeliveryId)
    returns (run: seq<Action>)
    requires one.channel != two.channel && id != later
    ensures Execute(run).Some? && IsStuckBefore(Execute(run).value, id, later)
  {
    hide Execute;
    run := BothPlannedRun(a, consumer, PriorityList, one, two, id, later);
    run := ClaimNow(run, 1, id);
    Then(run, Stop(1));
    run := run + [Stop(1)];
  }

  // ---- Two sends under one message id ----

  ghost predicate BothSending(s: State, first: DeliveryPlan, second: DeliveryPlan, id: DeliveryId, other: DeliveryId) {
    && s.db.rows == map[id := DeliveryRow(first, Sending, 1, 2), other := DeliveryRow(second, Sending, 1, 2)]
    && s.db.log.Keys == s.db.rows.Keys
    && (forall e, i :: e in s.db.log && 0 <= i < |s.db.log[e]| ==> s.db.log[e][i].attempt.None?)
    && s.threads.Keys == {0, 1, 2} && s.threads[0].Matcher?
    && s.threads[1] == Dispatcher(id, s.db.rows[id]) && s.threads[2] == Dispatcher(other, s.db.rows[other])
    && s.replay == {}
  }

  lemma BothSendingRun(
    a: AlertId, consumer: ConsumerId, one: ChannelEndpoint, two: ChannelEndpoint, id: DeliveryId, other: DeliveryId)
    returns (run: seq<Action>)
    requires one.channel != two.channel && id != other
    ensures Execute(run).Some?
    ensures BothSending(Execute(run).value, PlanAt(a, consumer, All, one, 0), PlanAt(a, consumer, All, two, 1), id,
                        other)
  {
    hide Execute;
    run := BothPlannedRun(a, consumer, All, one, two, id, other);
    run := ClaimNow(run, 1, id);
    run := ClaimNow(run, 2, other);
    var s := Execute(run).value;
    assert s.db.log[id] == [LogEntry(DeliveryRequested, 1, None), LogEntry(DeliveryStarted, 2, None)];
    assert s.db.log[other] == [LogEntry(DeliveryRequested, 1, None), LogEntry(DeliveryStarted, 2, None)];
  }

  /** Both channels report the same message id for their first attempts. */
  ghost predicate BothSent(
    s: State, first: DeliveryPlan, second: DeliveryPlan, id: DeliveryId, other: DeliveryId, message: string)
  {
    && s.db.rows == map[id := DeliveryRow(first, Sent, 1, 3), other := DeliveryRow(second, Sent, 1, 3)]
    && Finds(s.db, message, id) && Finds(s.db, message, other)
    && s.threads.Keys == {0} && s.threads[0].Matcher?
    && s.replay == {}
  }

  ghost predicate SendsEndedAs(before: Db, after: Db, id: DeliveryId, other: DeliveryId, message: string)
    requires id in before.log && other in before.log
  {
    var entry := LogEntry(DeliverySent, 3, Some(DeliveryAttempt(1, SentAs(Some(message)))));
    after.log == before.log[id := before.log[id] + [entry]][other := before.log[other] + [entry]]
  }

  lemma BothAreFound(
    s: State, first: DeliveryPlan, second: DeliveryPlan, id: DeliveryId, other: DeliveryId, after: Db, message: string)
    requires BothSending(s, first, second, id, other) && id != other
    requires SendsEndedAs(s.db, after, id, other, message)
    ensures Finds(after, message, id) && Finds(after, message, other)
  {
    var n: nat := 1;
    assert after.log[id][|s.db.log[id]|].attempt == Some(DeliveryAttempt(n, SentAs(Some(message))));
    assert after.log[other][|s.db.log[other]|].attempt == Some(DeliveryAttempt(n, SentAs(Some(message))));
    assert SentUnder(after, id, message, n) && SentUnder(after, other, message, n);
    forall e, k: nat | SentUnder(after, e, message, k) ensures k <= n {
      var i :| 0 <= i < |after.log[e]| && after.log[e][i].attempt == Some(DeliveryAttempt(k, SentAs(Some(message))));
      assert i == |s.db.log[e]|;
    }
  }

  /** The tables after the first record. */
  lemma RecordOne(s: State, t: ThreadId, message: string)
    requires s.db.rows.Keys == s.db.log.Keys && t in s.threads && s.threads[t].Dispatcher?
    requires var Dispatcher(id, row) := s.threads[t];
             id in s.db.rows && s.db.rows[id] == row && row.status == Sending
    ensures var Dispatcher(id, row) := s.threads[t];
            var change := Succeeded(row, Some(message)).value;
            && Enabled(s, Record(t, Accepted(Some(message))))
            && Perform(s, Record(t, Accepted(Some(message)))) == s.(
                 db := Db(s.db.rows[id := change.row], s.db.log[id := s.db.log[id] + [change.entry]]),
                 threads := s.threads - {t})
  {
  }

  lemma RecordBoth(
    s: State, first: DeliveryPlan, second: DeliveryPlan, id: DeliveryId, other: DeliveryId, message: string)
    requires BothSending(s, first, second, id, other) && id != other
    ensures s.db.rows.Keys == s.db.log.Keys && Enabled(s, Record(1, Accepted(Some(message))))
    ensures var middle := Perform(s, Record(1, Accepted(Some(message))));
            && middle.db.rows.Keys == middle.db.log.Keys && Enabled(middle, Record(2, Accepted(Some(message))))
            && BothSent(Perform(middle, Record(2, Accepted(Some(message)))), first, second, id, other, message)
  {
    hide Finds, Perform, Enabled;
    RecordOne(s, 1, message);
    var middle := Perform(s, Record(1, Accepted(Some(message))));
    RecordOne(middle, 2, message);
    var after := Perform(middle, Record(2, Accepted(Some(message))));
    assert SendsEndedAs(s.db, after.db, id, other, message);
    BothAreFound(s, first, second, id, other, after.db, message);
  }

  /** The report came from the other delivery's channel. */
  ghost predicate IsCrossed(s: State, event: WebhookEvent, id: DeliveryId, other: DeliveryId) {
    && id in s.db.rows && s.db.rows[id].status == Delivered && s.db.rows[id].plan.channel != event.channel
    && other in s.db.rows && s.db.rows[other].status == Sent && s.db.rows[other].plan.channel == event.channel
  }

  /** Nothing keeps two providers from using one message id, and the lookup does not ask for the channel: a report of
      the second channel can confirm the delivery on the first. */
  lemma CrossedRun(
    a: AlertId, consumer: ConsumerId, one: ChannelEndpoint, two: ChannelEndpoint, id: DeliveryId, other: DeliveryId,
    eventId: string, message: string) returns (run: seq<Action>)
    requires one.channel != two.channel && id != other
    ensures Execute(run).Some?
    ensures IsCrossed(Execute(run).value, Report(two.channel, eventId, message), id, other)
  {
    hide Execute, BothSending, Perform, Enabled, BothSent;
    var first, second := PlanAt(a, consumer, All, one, 0), PlanAt(a, consumer, All, two, 1);
    run := BothSendingRun(a, consumer, one, two, id, other);
    RecordBoth(Execute(run).value, first, second, id, other, message);
    Then(run, Record(1, Accepted(Some(message))));
    run := run + [Record(1, Accepted(Some(message)))];
    Then(run, Record(2, Accepted(Some(message))));
    run := run + [Record(2, Accepted(Some(message)))];
    run := ConfirmFirst(run, first, second, id, other, Report(two.channel, eventId, message));
  }

  lemma ConfirmFirst(
    run: seq<Action>, first: DeliveryPlan, second: DeliveryPlan, id: DeliveryId, other: DeliveryId, event: WebhookEvent)
    returns (longer: seq<Action>)
    requires Execute(run).Some? && event.status == ReportsDelivered && id != other
    requires BothSent(Execute(run).value, first, second, id, other, event.providerMessageId)
    requires first.channel != event.channel && second.channel == event.channel
    ensures Execute(longer).Some? && IsCrossed(Execute(longer).value, event, id, other)
  {
    hide Execute, Finds;
    var s := Execute(run).value;
    Then(run, Arrive(1, event));
    longer := run + [Arrive(1, event)];
    Then(longer, Locate(1, id));
    longer := longer + [Locate(1, id)];
    Then(longer, Load(1));
    longer := longer + [Load(1)];
    assert Execute(longer).value.threads[1] == Loaded(id, s.db.rows[id], event);
    Then(longer, Apply(1));
    longer := longer + [Apply(1)];
  }
}
