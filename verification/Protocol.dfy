/** The whole delivery engine as a step protocol: any number of matching workers, dispatch
    workers and callback handlers, interleaved at every database round trip, any of which
    may stop for good at any point. */
module Protocol {
  import opened Prelude
  import opened Identifiers
  import opened Deliveries
  import opened DeliveryLog
  import opened Database
  import opened Planning
  import opened Webhook

  type ThreadId = nat

  datatype OutboxStatus = Unclaimed | Claimed | Published

  /** How far a matching worker is with the event at the head of its batch. */
  datatype Phase = Idle | Inserting(done: nat)

  /** A thread, between two of its database round trips. */
  datatype Thread =
    | Matcher(batch: seq<AlertId>, next: nat, phase: Phase)
    | Candidate(id: DeliveryId)                                    // selected by the claim query, not yet locked
    | Dispatcher(id: DeliveryId, row: DeliveryRow)                 // a claimed delivery, in memory
    | Recorded(event: WebhookEvent)                                // past the replay guard
    | Located(id: DeliveryId, event: WebhookEvent)                 // found by provider message id
    | Loaded(id: DeliveryId, row: DeliveryRow, event: WebhookEvent) // a possibly stale copy, in memory

  /** What was planned for an alert, from which preferences, and which rows exist for it so far. */
  datatype AlertPlan = AlertPlan(preferences: Preferences, plan: seq<DeliveryPlan>, ids: seq<DeliveryId>)

  datatype State = State(
    db: Db,
    outbox: map<AlertId, OutboxStatus>,
    matched: map<AlertId, AlertPlan>,
    replay: set<ReplayKey>,
    threads: map<ThreadId, Thread>)

  const INIT := State(EMPTY, map[], map[], {}, map[])

  datatype SendOutcome = Accepted(messageId: Option<string>) | Refused(retryable: bool, reason: string)

  datatype Action =
    | NewAlert(alert: AlertId)
    | ClaimEvents(t: ThreadId, batch: seq<AlertId>)
    | Match(t: ThreadId, preferences: Preferences, plan: seq<DeliveryPlan>)
    | InsertNext(t: ThreadId, id: DeliveryId)
    | Publish(t: ThreadId)
    | Select(t: ThreadId, id: DeliveryId)
    | Start(t: ThreadId)
    | Record(t: ThreadId, outcome: SendOutcome)
    | Arrive(t: ThreadId, event: WebhookEvent)
    | Locate(t: ThreadId, id: DeliveryId)   // the lookup finds a delivery
    | Miss(t: ThreadId)                     // the lookup finds none, and the handler is done
    | Load(t: ThreadId)
    | Apply(t: ThreadId)
    | Stop(t: ThreadId)                     // a fault, a crash, or the end of a matching batch

  function Ended(row: DeliveryRow, outcome: SendOutcome): Transition {
    match outcome
    case Accepted(messageId) => Succeeded(row, messageId)
    case Refused(retryable, reason) => Failed(row, retryable, reason)
  }

  /** What becomes of a delivery that was being sent, for each answer its channel can give. */
  ghost predicate EndsAs(row: DeliveryRow, outcome: SendOutcome, now: DeliveryRow, attempt: DeliveryAttempt) {
    && now.plan == row.plan && now.attemptCount == row.attemptCount && now.version == row.version + 1
    && attempt.number == row.attemptCount
    && (outcome.Accepted? ==> now.status == Sent && attempt.outcome == SentAs(outcome.messageId))
    && (outcome.Refused? ==>
          && attempt.outcome == FailedWith(outcome.retryable, outcome.reason)
          && (now.status == Retrying <==> outcome.retryable && row.attemptCount < row.plan.maxAttempts)
          && (now.status != Retrying ==> now.status == FailedPermanently))
  }

  /** Recording an outcome cannot be rejected while the delivery is being sent, and leads where the answer says. */
  lemma OutcomeIsRecorded(row: DeliveryRow, outcome: SendOutcome)
    requires row.status == Sending
    ensures Ended(row, outcome).Success?
    ensures var change := Ended(row, outcome).value;
            change.entry.attempt.Some? && EndsAs(row, outcome, change.row, change.entry.attempt.value)
  {
  }

  predicate MatcherAt(s: State, t: ThreadId) {
    t in s.threads && s.threads[t].Matcher? && s.threads[t].next < |s.threads[t].batch|
  }

  function Current(s: State, t: ThreadId): AlertId
    requires MatcherAt(s, t)
  {
    s.threads[t].batch[s.threads[t].next]
  }

  /** The matching worker has planned its current event and inserted `done` deliveries of it. */
  predicate MatcherInserting(s: State, t: ThreadId) {
    MatcherAt(s, t) && s.threads[t].phase.Inserting? && Current(s, t) in s.matched
  }

  predicate AllUnclaimed(s: State, batch: seq<AlertId>) {
    forall i :: 0 <= i < |batch| ==> batch[i] in s.outbox && s.outbox[batch[i]] == Unclaimed
  }

  ghost predicate Enabled(s: State, action: Action) {
    match action
    case NewAlert(alert) => alert !in s.outbox
    case ClaimEvents(t, batch) => t !in s.threads && Distinct(batch) && AllUnclaimed(s, batch)
    case Match(t, preferences, plan) =>
      && MatcherAt(s, t) && s.threads[t].phase == Idle
      && ValidPreferences(preferences) && WellFormedPlan(Current(s, t), preferences, plan)
    case InsertNext(t, id) =>
      && MatcherInserting(s, t) && s.threads[t].phase.done < |s.matched[Current(s, t)].plan|
      && id !in s.db.rows
    case Publish(t) =>
      MatcherInserting(s, t) && s.threads[t].phase.done >= |s.matched[Current(s, t)].plan|
    case Select(t, id) =>
      t !in s.threads && id in s.db.rows && Waiting(s.db.rows[id].status) && GateOpen(s.db, id)
    case Start(t) =>
      && t in s.threads && s.threads[t].Candidate?
      && s.threads[t].id in s.db.rows && Waiting(s.db.rows[s.threads[t].id].status)
    case Record(t, _) => t in s.threads && s.threads[t].Dispatcher?
    case Arrive(t, _) => t !in s.threads
    case Locate(t, id) =>
      t in s.threads && s.threads[t].Recorded? && Finds(s.db, s.threads[t].event.providerMessageId, id)
    case Miss(t) =>
      t in s.threads && s.threads[t].Recorded? && !exists id :: Finds(s.db, s.threads[t].event.providerMessageId, id)
    case Load(t) => t in s.threads && s.threads[t].Located? && s.threads[t].id in s.db.rows
    case Apply(t) => t in s.threads && s.threads[t].Loaded?
    case Stop(t) => t in s.threads
  }

  /** Writing back an in-memory transition: a rejected or stale one leaves the tables alone. */
  function WriteBack(db: Db, id: DeliveryId, transition: Transition): Db
    requires db.rows.Keys == db.log.Keys
  {
    match transition
    case Failure(_) => db
    case Success(change) => CompareAndSet(db, id, change)
  }

  ghost function Perform(s: State, action: Action): State
    requires Enabled(s, action) && s.db.rows.Keys == s.db.log.Keys
  {
    match action
    case NewAlert(alert) => s.(outbox := s.outbox[alert := Unclaimed])
    case ClaimEvents(t, batch) =>
      s.(outbox := s.outbox + (map a | a in batch :: Claimed), threads := s.threads[t := Matcher(batch, 0, Idle)])
    case Match(t, preferences, plan) =>
      s.(matched := s.matched[Current(s, t) := AlertPlan(preferences, plan, [])],
         threads := s.threads[t := s.threads[t].(phase := Inserting(0))])
    case InsertNext(t, id) =>
      var a, done := Current(s, t), s.threads[t].phase.done;
      var m, next := s.matched[a], s.threads[t := s.threads[t].(phase := Inserting(done + 1))];
      if KeyTaken(s.db, m.plan[done]) then s.(threads := next)
      else
        s.(db := Inserted(s.db, id, m.plan[done]),
           matched := s.matched[a := m.(ids := m.ids + [id])],
           threads := next)
    case Publish(t) =>
      s.(outbox := s.outbox[Current(s, t) := Published],
         threads := s.threads[t := s.threads[t].(next := s.threads[t].next + 1, phase := Idle)])
    case Select(t, id) => s.(threads := s.threads[t := Candidate(id)])
    case Start(t) =>
      var id := s.threads[t].id;
      var change := Started(s.db.rows[id]).value;
      s.(db := CompareAndSet(s.db, id, change), threads := s.threads[t := Dispatcher(id, change.row)])
    case Record(t, outcome) =>
      var Dispatcher(id, row) := s.threads[t];
      s.(db := WriteBack(s.db, id, Ended(row, outcome)), threads := s.threads - {t})
    case Arrive(t, event) =>
      if KeyOf(event) in s.replay then s
      else s.(replay := s.replay + {KeyOf(event)}, threads := s.threads[t := Recorded(event)])
    case Locate(t, id) => s.(threads := s.threads[t := Located(id, s.threads[t].event)])
    case Miss(t) => s.(threads := s.threads - {t})
    case Load(t) =>
      var Located(id, event) := s.threads[t];
      s.(threads := s.threads[t := Loaded(id, s.db.rows[id], event)])
    case Apply(t) =>
      var Loaded(id, row, event) := s.threads[t];
      s.(db := WriteBack(s.db, id, AppliedEvent(row, event.status)), threads := s.threads - {t})
    case Stop(t) => s.(threads := s.threads - {t})
  }

  // ---- The invariant ----

  type OutboxTable = map<AlertId, OutboxStatus>
  type AlertPlans = map<AlertId, AlertPlan>
  type Threads = map<ThreadId, Thread>

  /** The rows of an alert are exactly the first part of its plan, in plan order. */
  ghost predicate AlertPlanOk(db: Db, a: AlertId, m: AlertPlan) {
    && WellFormedPlan(a, m.preferences, m.plan)
    && |m.ids| <= |m.plan|
    && forall i :: 0 <= i < |m.ids| ==> m.ids[i] in db.rows && db.rows[m.ids[i]].plan == m.plan[i]
  }

  ghost predicate PlanInv(db: Db, outbox: OutboxTable, matched: AlertPlans) {
    && (forall a :: a in matched ==> a in outbox && outbox[a] != Unclaimed && AlertPlanOk(db, a, matched[a]))
    && (forall id :: id in db.rows ==>
          var a := db.rows[id].plan.alertId;
          a in matched && id in matched[a].ids)
    && (forall a :: a in outbox && outbox[a] == Published ==> a in matched && |matched[a].ids| == |matched[a].plan|)
  }

  /** A matching worker owns the unpublished rest of its batch. */
  ghost predicate MatcherOk(outbox: OutboxTable, matched: AlertPlans, thread: Thread)
    requires thread.Matcher?
  {
    var batch, next := thread.batch, thread.next;
    && next <= |batch|
    && Distinct(batch)
    && (forall i :: 0 <= i < |batch| ==>
          batch[i] in outbox && outbox[batch[i]] == if i < next then Published else Claimed)
    && (forall i :: next < i < |batch| ==> batch[i] !in matched)
    && match thread.phase
       case Idle => next < |batch| ==> batch[next] !in matched
       case Inserting(done) => next < |batch| && batch[next] in matched && |matched[batch[next]].ids| == done
  }

  ghost predicate ApartFrom(one: Thread, other: Thread) {
    one.Matcher? && other.Matcher? ==> forall a :: a in one.batch ==> a !in other.batch
  }

  ghost predicate MatcherInv(outbox: OutboxTable, matched: AlertPlans, threads: Threads) {
    && (forall t :: t in threads && threads[t].Matcher? ==> MatcherOk(outbox, matched, threads[t]))
    && (forall t, u :: t in threads && u in threads && t != u ==> ApartFrom(threads[t], threads[u]))
  }

  /** A selected delivery's gate stays open; a claimed delivery's copy stays current. */
  ghost predicate WorkerOk(db: Db, thread: Thread) {
    match thread
    case Candidate(id) => id in db.rows && GateOpen(db, id)
    case Dispatcher(id, row) => id in db.rows && db.rows[id] == row && row.status == Sending
    case _ => true
  }

  predicate SameClaim(one: Thread, other: Thread) {
    one.Dispatcher? && other.Dispatcher? && one.id == other.id
  }

  ghost predicate WorkerInv(db: Db, threads: Threads) {
    && (forall t :: t in threads ==> WorkerOk(db, threads[t]))
    && (forall t, u :: t in threads && u in threads && t != u ==> !SameClaim(threads[t], threads[u]))
  }

  /** `now` is `past` itself, or what became of it when another callback confirmed it first. */
  predicate Descends(past: DeliveryRow, now: DeliveryRow) {
    || (now == past && now.status in {Sent, Delivered})
    || (past.status == Sent && now == past.(status := Delivered, version := past.version + 1))
  }

  ghost predicate HandlerOk(db: Db, replay: set<ReplayKey>, thread: Thread) {
    match thread
    case Recorded(event) => KeyOf(event) in replay
    case Located(id, _) => id in db.rows && db.rows[id].status in {Sent, Delivered}
    case Loaded(id, row, _) => id in db.rows && Descends(row, db.rows[id])
    case _ => true
  }

  ghost predicate HandlerInv(db: Db, replay: set<ReplayKey>, threads: Threads) {
    forall t :: t in threads ==> HandlerOk(db, replay, threads[t])
  }

  ghost predicate Inv(s: State) {
    && Consistent(s.db)
    && Gated(s.db)
    && PlanInv(s.db, s.outbox, s.matched)
    && MatcherInv(s.outbox, s.matched, s.threads)
    && WorkerInv(s.db, s.threads)
    && HandlerInv(s.db, s.replay, s.threads)
  }

  lemma InvParts(s: State)
    requires Inv(s)
    ensures s.db.rows.Keys == s.db.log.Keys
    ensures Consistent(s.db) && Gated(s.db)
    ensures PlanInv(s.db, s.outbox, s.matched)
    ensures MatcherInv(s.outbox, s.matched, s.threads)
    ensures WorkerInv(s.db, s.threads)
    ensures HandlerInv(s.db, s.replay, s.threads)
  {
  }
}
