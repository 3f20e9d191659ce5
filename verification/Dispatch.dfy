/** The dispatch worker: claim ready deliveries, send each, record the outcome; and what
    running it until it finds nothing left to claim leads to. */
module Dispatch {
  import opened Prelude
  import opened Identifiers
  import opened Deliveries
  import opened DeliveryLog
  import opened Database
  import opened Protocol
  import opened Repository
  import opened Connections
  import ProtocolDispatch

  /** Everything outside the engine that a dispatch depends on. The channel answers each
      attempt of each delivery however it likes. */
  datatype Environment = Environment(
    registered: set<ChannelType>,
    alerts: set<AlertId>,
    send: (DeliveryId, nat) -> SendOutcome)

  const NO_CHANNEL := "no channel registered for this delivery's channel type"
  const NO_ALERT := "alert no longer exists"

  function OutcomeOf(env: Environment, id: DeliveryId, row: DeliveryRow): SendOutcome {
    if row.plan.channel !in env.registered then Refused(false, NO_CHANNEL)
    else if row.plan.alertId !in env.alerts then Refused(false, NO_ALERT)
    else env.send(id, row.attemptCount)
  }

  function Finished(env: Environment, id: DeliveryId, row: DeliveryRow): Transition {
    Ended(row, OutcomeOf(env, id, row))
  }

  /** What is recorded for a delivery that was being sent: a permanent failure when its channel is not registered or its
      alert is gone, else what its channel answered. */
  ghost predicate Records(
    env: Environment, id: DeliveryId, row: DeliveryRow, now: DeliveryRow, attempt: DeliveryAttempt)
  {
    if row.plan.channel !in env.registered then
      && now == row.(status := FailedPermanently, version := row.version + 1)
      && attempt == DeliveryAttempt(row.attemptCount, FailedWith(false, NO_CHANNEL))
    else if row.plan.alertId !in env.alerts then
      && now == row.(status := FailedPermanently, version := row.version + 1)
      && attempt == DeliveryAttempt(row.attemptCount, FailedWith(false, NO_ALERT))
    else EndsAs(row, env.send(id, row.attemptCount), now, attempt)
  }

  lemma FinishedRecords(env: Environment, id: DeliveryId, row: DeliveryRow)
    requires row.status == Sending
    ensures Finished(env, id, row).Success?
    ensures var change := Finished(env, id, row).value;
            change.entry.attempt.Some? && Records(env, id, row, change.row, change.entry.attempt.value)
  {
    OutcomeIsRecorded(row, OutcomeOf(env, id, row));
  }

  /** Records a failure. The transition cannot be rejected and the write, unless the database fails, cannot conflict. */
  method Fail(
    connection: Connection, repository: DeliveryRepository, delivery: Delivery, retryable: bool, reason: string)
    returns (ok: bool)
    requires repository.rows.Keys == repository.log.Keys
    requires delivery.id in repository.rows && delivery.Row() == repository.rows[delivery.id]
    requires delivery.status == Sending
    modifies connection, repository`rows, repository`log, delivery
    ensures NeverFails(connection) ==> ok
    ensures repository.Tables() ==
            if ok
            then CompareAndSet(
                   old(repository.Tables()), delivery.id, Failed(old(delivery.Row()), retryable, reason).value)
            else old(repository.Tables())
    ensures ok ==>
              var row := old(delivery.Row());
              && delivery.id in repository.rows
              && repository.rows[delivery.id] == row.(
                   status := if retryable && row.attemptCount < row.plan.maxAttempts
                             then Retrying else FailedPermanently,
                   version := row.version + 1)
  {
    var transition := delivery.RecordFailure(retryable, reason);
    ok := connection.RoundTrip();
    if ok {
      var outcome := repository.ApplyTransition(delivery, transition.value);
      assert outcome == Applied;
    }
  }

  /** Sends one claimed delivery and records the outcome; a database fault, even after the send, leaves its row
      alone. */
  method DispatchOne(connection: Connection, repository: DeliveryRepository, env: Environment, delivery: Delivery)
    returns (ok: bool)
    requires repository.rows.Keys == repository.log.Keys
    requires delivery.id in repository.rows && delivery.Row() == repository.rows[delivery.id]
    requires delivery.status == Sending
    modifies connection, repository`rows, repository`log, delivery
    ensures NeverFails(connection) ==> ok
    ensures var before := old(delivery.Row());
            && Finished(env, delivery.id, before).Success?
            && repository.Tables() ==
               if ok then CompareAndSet(old(repository.Tables()), delivery.id, Finished(env, delivery.id, before).value)
               else old(repository.Tables())
    ensures ok ==>
              && delivery.id in repository.rows && delivery.id in repository.log && delivery.id in old(repository.log)
              && (exists entry ::
                    && repository.log[delivery.id] == old(repository.log)[delivery.id] + [entry]
                    && entry.attempt.Some?
                    && Records(env, delivery.id, old(delivery.Row()), repository.rows[delivery.id],
                               entry.attempt.value))
    ensures forall e :: e in old(repository.rows) && e != delivery.id ==>
              e in repository.rows && repository.rows[e] == old(repository.rows)[e]
  {
    FinishedRecords(env, delivery.id, delivery.Row());
    if delivery.plan.channel !in env.registered {
      ok := Fail(connection, repository, delivery, false, NO_CHANNEL);
      return;
    }
    ok := connection.RoundTrip();
    if !ok {
      return;
    }
    if delivery.plan.alertId !in env.alerts {
      ok := Fail(connection, repository, delivery, false, NO_ALERT);
      return;
    }
    ok := connection.RoundTrip();
    if !ok {
      return;
    }
    match env.send(delivery.id, delivery.attemptCount)
    case Accepted(messageId) =>
      var transition := delivery.RecordSuccess(messageId);
      ok := connection.RoundTrip();
      if ok {
        var outcome := repository.ApplyTransition(delivery, transition.value);
        assert outcome == Applied;
      }
    case Refused(retryable, reason) =>
      ok := Fail(connection, repository, delivery, retryable, reason);
  }

  /** Recording an outcome on each of `ids`, in order. */
  function FinishAll(env: Environment, db: Db, ids: seq<DeliveryId>): (after: Db)
    requires db.rows.Keys == db.log.Keys
    ensures after.rows.Keys == after.log.Keys == db.rows.Keys
  {
    if |ids| == 0 then db
    else
      var before, id := FinishAll(env, db, ids[..|ids| - 1]), ids[|ids| - 1];
      if id in before.rows && Finished(env, id, before.rows[id]).Success?
      then CompareAndSet(before, id, Finished(env, id, before.rows[id]).value)
      else before
  }

  ghost predicate OutcomesRecorded(env: Environment, db: Db, after: Db, ids: seq<DeliveryId>) {
    && after.rows.Keys == db.rows.Keys
    && (forall id :: id in db.rows && id !in ids ==> after.rows[id] == db.rows[id])
    && (forall id :: id in db.rows && id in ids ==>
          && Finished(env, id, db.rows[id]).Success?
          && after.rows[id] == Finished(env, id, db.rows[id]).value.row)
  }

  ghost predicate AllSending(db: Db, ids: seq<DeliveryId>) {
    forall id :: id in ids ==> id in db.rows && db.rows[id].status == Sending
  }

  lemma SendingFinishes(env: Environment, db: Db, id: DeliveryId)
    requires Consistent(db) && Gated(db) && id in db.rows && db.rows[id].status == Sending
    ensures db.rows.Keys == db.log.Keys && Finished(env, id, db.rows[id]).Success?
    ensures var after := CompareAndSet(db, id, Finished(env, id, db.rows[id]).value);
            && Consistent(after) && Gated(after)
            && after.rows == db.rows[id := Finished(env, id, db.rows[id]).value.row]
  {
    ConsistentKeys(db);
    CompareAndSetKeeps(db, id, Finished(env, id, db.rows[id]).value);
  }

  lemma OutcomesRecordedSnoc(env: Environment, db: Db, before: Db, after: Db, front: seq<DeliveryId>, id: DeliveryId)
    requires OutcomesRecorded(env, db, before, front) && id in db.rows && id !in front
    requires Finished(env, id, db.rows[id]).Success?
    requires after.rows == before.rows[id := Finished(env, id, db.rows[id]).value.row]
    ensures OutcomesRecorded(env, db, after, front + [id])
  {
    hide Finished;
  }

  lemma NotYetFinished(env: Environment, db: Db, before: Db, front: seq<DeliveryId>, id: DeliveryId)
    requires OutcomesRecorded(env, db, before, front) && id in db.rows && id !in front
    ensures id in before.rows && before.rows[id] == db.rows[id]
  {
  }

  lemma FinishNone(env: Environment, db: Db, ids: seq<DeliveryId>)
    requires db.rows.Keys == db.log.Keys && ids == []
    ensures FinishAll(env, db, ids) == db
    ensures OutcomesRecorded(env, db, db, ids)
  {
  }

  lemma FinishSnoc(env: Environment, db: Db, front: seq<DeliveryId>, id: DeliveryId)
    requires db.rows.Keys == db.log.Keys
    ensures var before := FinishAll(env, db, front);
            FinishAll(env, db, front + [id]) ==
              if id in before.rows && Finished(env, id, before.rows[id]).Success?
              then CompareAndSet(before, id, Finished(env, id, before.rows[id]).value)
              else before
  {
    assert (front + [id])[..|front|] == front;
    hide CompareAndSet, Finished;
  }

  lemma SendingPrefix(db: Db, ids: seq<DeliveryId>, n: nat)
    requires Distinct(ids) && AllSending(db, ids) && n <= |ids|
    ensures Distinct(ids[..n]) && AllSending(db, ids[..n])
    ensures n < |ids| ==> ids[n] !in ids[..n] && ids[n] in db.rows && db.rows[ids[n]].status == Sending
  {
    assert forall x :: x in ids[..n] ==> x in ids;
    assert n < |ids| ==> ids[n] in ids;
  }

  lemma {:induction false} FinishAllKeeps(env: Environment, db: Db, ids: seq<DeliveryId>)
    requires Consistent(db) && Gated(db) && Distinct(ids) && AllSending(db, ids)
    ensures db.rows.Keys == db.log.Keys
    ensures var after := FinishAll(env, db, ids);
            Consistent(after) && Gated(after) && OutcomesRecorded(env, db, after, ids)
  {
    hide Consistent, Gated, CompareAndSet, Finished, FinishAll, OutcomesRecorded, AllSending, Distinct;
    ConsistentKeys(db);
    if |ids| == 0 {
      FinishNone(env, db, ids);
    } else {
      var n := |ids| - 1;
      var id := ids[n];
      SendingPrefix(db, ids, n);
      FinishAllKeeps(env, db, ids[..n]);
      var before := FinishAll(env, db, ids[..n]);
      assert ids == ids[..n] + [id];
      FinishSnoc(env, db, ids[..n], id);
      NotYetFinished(env, db, before, ids[..n], id);
      SendingFinishes(env, before, id);
      OutcomesRecordedSnoc(env, db, before, FinishAll(env, db, ids), ids[..n], id);
    }
  }

  /** One cycle over a batch, as a function of the tables. */
  function BatchResult(env: Environment, db: Db, ids: seq<DeliveryId>): Db
    requires db.rows.Keys == db.log.Keys
  {
    FinishAll(env, StartAll(db, ids), ids)
  }

  function Batch(db: Db, created: seq<DeliveryId>, due: set<DeliveryId>, limit: nat): seq<DeliveryId> {
    Page(Claimable(db, created, due), limit, 0)
  }

  /** The delivery went through one whole attempt: counted, sent, and recorded as the environment decides. */
  ghost predicate WasAttempted(env: Environment, id: DeliveryId, row: DeliveryRow, now: DeliveryRow) {
    var started := row.(status := Sending, attemptCount := row.attemptCount + 1, version := row.version + 1);
    exists attempt :: Records(env, id, started, now, attempt)
  }

  lemma AttemptRecords(env: Environment, id: DeliveryId, row: DeliveryRow)
    requires Waiting(row.status)
    ensures Started(row).Success? && Finished(env, id, Started(row).value.row).Success?
    ensures WasAttempted(env, id, row, Finished(env, id, Started(row).value.row).value.row)
  {
    var started := Started(row).value.row;
    FinishedRecords(env, id, started);
    assert Records(env, id, started, Finished(env, id, started).value.row,
                   Finished(env, id, started).value.entry.attempt.value);
  }

  /** The first `n` of a claimed batch were attempted. */
  lemma PrefixWasAttempted(env: Environment, db: Db, ids: seq<DeliveryId>, n: nat)
    requires Consistent(db) && Gated(db) && Distinct(ids) && AllReady(db, ids) && n <= |ids|
    ensures db.rows.Keys == db.log.Keys
    ensures var after := FinishAll(env, StartAll(db, ids), ids[..n]);
            forall i :: 0 <= i < n ==>
              && ids[i] in db.rows && ids[i] in after.rows
              && WasAttempted(env, ids[i], db.rows[ids[i]], after.rows[ids[i]])
  {
    hide Consistent, Gated, GateOpen, StartAll, FinishAll, Finished, Started, Distinct, Waiting, WasAttempted;
    StartAllKeeps(db, ids);
    StartedAreSending(db, ids);
    SendingPrefix(StartAll(db, ids), ids, n);
    FinishAllKeeps(env, StartAll(db, ids), ids[..n]);
    forall i | 0 <= i < n
      ensures ids[i] in db.rows && ids[i] in FinishAll(env, StartAll(db, ids), ids[..n]).rows
      ensures WasAttempted(env, ids[i], db.rows[ids[i]], FinishAll(env, StartAll(db, ids), ids[..n]).rows[ids[i]])
    {
      assert ids[i] == ids[..n][i] && ids[i] in ids[..n] && ids[i] in ids;
      AttemptRecords(env, ids[i], db.rows[ids[i]]);
    }
  }

  lemma StartedAreSending(db: Db, ids: seq<DeliveryId>)
    requires db.rows.Keys == db.log.Keys
    requires AttemptsStarted(db, StartAll(db, ids), ids) && AllReady(db, ids)
    ensures AllSending(StartAll(db, ids), ids)
  {
    hide GateOpen, StartAll;
  }

  /** The object copies of a claimed batch, still ahead of the loop. */
  ghost predicate StillHeld(repository: DeliveryRepository, claimed: seq<Delivery>, ids: seq<DeliveryId>, n: nat)
    requires |claimed| == |ids|
    reads repository, claimed
  {
    forall i :: n <= i < |ids| ==> repository.Holds(claimed[i], ids[i])
  }

  /** Recording outcomes on the first `n` leaves the rest as they were claimed. */
  lemma RestIsSending(env: Environment, db: Db, ids: seq<DeliveryId>, n: nat)
    requires Consistent(db) && Gated(db) && Distinct(ids) && AllSending(db, ids) && n <= |ids|
    ensures db.rows.Keys == db.log.Keys
    ensures var after := FinishAll(env, db, ids[..n]);
            && Consistent(after) && Gated(after)
            && forall i :: n <= i < |ids| ==> ids[i] in after.rows && after.rows[ids[i]].status == Sending
  {
    hide Consistent, Gated, FinishAll, Finished;
    SendingPrefix(db, ids, n);
    FinishAllKeeps(env, db, ids[..n]);
    forall i | n <= i < |ids|
      ensures ids[i] in db.rows && ids[i] !in ids[..n] && db.rows[ids[i]].status == Sending
    {
      assert ids[i] in ids;
    }
  }

  /** Claims up to `batchSize` deliveries and dispatches each one. A database fault ends the cycle early: the outcomes
      of the first `n` are recorded, and the rest of the batch is left Sending. */
  method ProcessBatch(
    connection: Connection, repository: DeliveryRepository, env: Environment, due: set<DeliveryId>, batchSize: nat)
    returns (count: Option<nat>, ghost batch: seq<DeliveryId>, ghost n: nat)
    requires repository.Valid() && Gated(repository.Tables())
    modifies connection, repository`rows, repository`log
    ensures old(repository.rows).Keys == old(repository.log).Keys
    ensures batch == [] || batch == Batch(old(repository.Tables()), repository.created, due, batchSize)
    ensures n <= |batch| && repository.Tables() == FinishAll(env, StartAll(old(repository.Tables()), batch), batch[..n])
    ensures forall i :: 0 <= i < n ==>
              && batch[i] in old(repository.rows) && batch[i] in repository.rows
              && WasAttempted(env, batch[i], old(repository.rows)[batch[i]], repository.rows[batch[i]])
    ensures forall i :: n <= i < |batch| ==>
              batch[i] in repository.rows && repository.rows[batch[i]].status == Sending
    ensures count.Some? ==>
              && count == Some(n) && n == |batch|
              && batch == Batch(old(repository.Tables()), repository.created, due, batchSize)
              && repository.Tables() == BatchResult(env, old(repository.Tables()), batch)
    ensures NeverFails(connection) ==> count.Some?
    ensures repository.Valid() && Gated(repository.Tables())
  {
    hide Consistent, Gated, GateOpen, Claimable, Page, StartAll, FinishAll, CompareAndSet, Finished, AllSending,
      AllReady, AttemptsStarted, GatesKept, OutcomesRecorded, Distinct, WasAttempted, TakesFirst;
    ghost var start := repository.Tables();
    ConsistentKeys(start);
    batch, n, count := [], 0, None;
    StartNone(start, []);
    FinishNone(env, start, []);
    var ok := connection.RoundTrip();
    if !ok {
      return;
    }
    batch := Batch(start, repository.created, due, batchSize);
    ClaimableIsReady(start, repository.created, due, batchSize);
    StartAllKeeps(start, batch);
    StartedAreSending(start, batch);
    var claimed := repository.ClaimNext(batchSize, due);
    ok, n := DispatchAll(connection, repository, env, claimed, batch);
    RestIsSending(env, StartAll(start, batch), batch, n);
    PrefixWasAttempted(env, start, batch, n);
    if ok {
      assert batch[..n] == batch;
      count := Some(|claimed|);
    }
  }

  /** The next outcome of the loop is recorded on a row that is still as it was claimed. */
  lemma NextFinish(env: Environment, db: Db, ids: seq<DeliveryId>, n: nat)
    requires Consistent(db) && Gated(db) && Distinct(ids) && AllSending(db, ids) && n < |ids|
    ensures db.rows.Keys == db.log.Keys
    ensures var before, id := FinishAll(env, db, ids[..n]), ids[n];
            && id in before.rows && before.rows[id].status == Sending
            && Finished(env, id, before.rows[id]).Success?
            && var after := FinishAll(env, db, ids[..n + 1]);
               && after == CompareAndSet(before, id, Finished(env, id, before.rows[id]).value)
               && after.rows == before.rows[id := Finished(env, id, before.rows[id]).value.row]
  {
    hide Consistent, Gated, FinishAll, Finished, CompareAndSet, Distinct, AllSending;
    RestIsSending(env, db, ids, n);
    SendingFinishes(env, FinishAll(env, db, ids[..n]), ids[n]);
    FinishSnoc(env, db, ids[..n], ids[n]);
    assert ids[..n + 1] == ids[..n] + [ids[n]];
  }

  method DispatchAll(
    connection: Connection, repository: DeliveryRepository, env: Environment, claimed: seq<Delivery>,
    ghost ids: seq<DeliveryId>)
    returns (ok: bool, ghost done: nat)
    requires Consistent(repository.Tables()) && Gated(repository.Tables())
    requires |claimed| == |ids| && Distinct(ids) && AllSending(repository.Tables(), ids)
    requires StillHeld(repository, claimed, ids, 0)
    requires forall i, j :: 0 <= i < j < |claimed| ==> claimed[i] != claimed[j]
    modifies connection, repository`rows, repository`log, claimed
    ensures old(repository.rows).Keys == old(repository.log).Keys
    ensures done <= |ids| && (ok ==> done == |ids|) && (NeverFails(connection) ==> ok)
    ensures repository.Tables() == FinishAll(env, old(repository.Tables()), ids[..done])
  {
    hide Consistent, Gated, FinishAll, CompareAndSet, Finished, AllSending, Distinct;
    ghost var start := repository.Tables();
    ConsistentKeys(start);
    FinishNone(env, start, ids[..0]);
    ok, done := true, 0;
    for n := 0 to |claimed|
      invariant done == n && ok
      invariant repository.rows.Keys == repository.log.Keys
      invariant repository.Tables() == FinishAll(env, start, ids[..n])
      invariant StillHeld(repository, claimed, ids, n)
    {
      NextFinish(env, start, ids, n);
      OthersDiffer(ids, n);
      ok := DispatchOne(connection, repository, env, claimed[n]);
      if !ok {
        return;
      }
      done := n + 1;
    }
  }

  lemma OthersDiffer(ids: seq<DeliveryId>, n: nat)
    requires Distinct(ids) && n < |ids|
    ensures forall i :: n < i < |ids| ==> ids[i] != ids[n]
  {
  }

  // ---- Running until nothing is left to claim ----

  /** How many more transitions the worker can make on a delivery. */
  function Remaining(row: DeliveryRow): nat {
    var left := if row.attemptCount <= row.plan.maxAttempts then row.plan.maxAttempts - row.attemptCount else 0;
    match row.status
    case Queued => 2 * left
    case Retrying => 2 * left
    case Sending => 2 * left + 1
    case _ => 0
  }

  function TotalRemaining(rows: map<DeliveryId, DeliveryRow>, ids: seq<DeliveryId>): nat {
    if |ids| == 0 then 0
    else
      var last := ids[|ids| - 1];
      TotalRemaining(rows, ids[..|ids| - 1]) + if last in rows then Remaining(rows[last]) else 0
  }

  lemma {:induction false} TotalIsMonotone(
    before: map<DeliveryId, DeliveryRow>, after: map<DeliveryId, DeliveryRow>, ids: seq<DeliveryId>)
    requires before.Keys == after.Keys
    requires forall id :: id in before ==> Remaining(after[id]) <= Remaining(before[id])
    ensures TotalRemaining(after, ids) <= TotalRemaining(before, ids)
    ensures (exists id :: id in ids && id in before && Remaining(after[id]) < Remaining(before[id])) ==>
              TotalRemaining(after, ids) < TotalRemaining(before, ids)
  {
    hide Remaining;
    if |ids| > 0 {
      var front, last := ids[..|ids| - 1], ids[|ids| - 1];
      assert ids == front + [last];
      TotalIsMonotone(before, after, front);
    }
  }

  /** One whole attempt on a waiting delivery. */
  function Attempted(env: Environment, id: DeliveryId, row: DeliveryRow): DeliveryRow
    requires Waiting(row.status)
  {
    Finished(env, id, Started(row).value.row).value.row
  }

  /** An attempt that is started and finished leaves less to do, and is no longer in flight. */
  lemma AttemptUsesUp(env: Environment, id: DeliveryId, row: DeliveryRow)
    requires Balanced(row) && Waiting(row.status)
    ensures var finished := Attempted(env, id, row);
            && Remaining(finished) < Remaining(row)
            && finished.status in {Sent, Retrying, FailedPermanently}
            && finished.plan == row.plan
  {
  }

  /** What one batch does to each row. */
  lemma BatchRows(env: Environment, db: Db, ids: seq<DeliveryId>)
    requires Consistent(db) && Gated(db) && Distinct(ids) && AllReady(db, ids)
    ensures db.rows.Keys == db.log.Keys
    ensures var after := BatchResult(env, db, ids);
            && Consistent(after) && Gated(after)
            && after.rows.Keys == db.rows.Keys
            && (forall id :: id in db.rows && id !in ids ==> after.rows[id] == db.rows[id])
            && (forall id :: id in db.rows && id in ids ==>
                  && Waiting(db.rows[id].status)
                  && after.rows[id] == Attempted(env, id, db.rows[id]))
  {
    hide Consistent, Gated, GateOpen, StartAll, FinishAll, Finished, Started, Distinct, Waiting;
    StartAllKeeps(db, ids);
    StartedAreSending(db, ids);
    FinishAllKeeps(env, StartAll(db, ids), ids);
  }

  ghost predicate NoneSending(db: Db) {
    forall id :: id in db.rows ==> db.rows[id].status != Sending
  }

  ghost predicate SamePlans(db: Db, after: Db) {
    after.rows.Keys == db.rows.Keys && forall id :: id in db.rows ==> after.rows[id].plan == db.rows[id].plan
  }

  lemma AccountingOf(db: Db, id: DeliveryId)
    requires Consistent(db) && id in db.rows
    ensures Balanced(db.rows[id])
  {
    Accounting(db.rows[id], db.log[id]);
  }

  lemma BatchMakesProgress(env: Environment, db: Db, created: seq<DeliveryId>, ids: seq<DeliveryId>)
    requires Consistent(db) && Gated(db) && Distinct(ids) && AllReady(db, ids)
    requires NoneSending(db) && forall id :: id in ids ==> id in created
    ensures db.rows.Keys == db.log.Keys
    ensures var after := BatchResult(env, db, ids);
            && SamePlans(db, after) && NoneSending(after)
            && (|ids| > 0 ==> TotalRemaining(after.rows, created) < TotalRemaining(db.rows, created))
  {
    hide Consistent, Gated, GateOpen, BatchResult, Finished, Started, Distinct, Balanced, Remaining;
    BatchRows(env, db, ids);
    var after := BatchResult(env, db, ids);
    forall id | id in db.rows && id in ids
      ensures Remaining(after.rows[id]) < Remaining(db.rows[id])
      ensures after.rows[id].status in {Sent, Retrying, FailedPermanently} && after.rows[id].plan == db.rows[id].plan
    {
      AccountingOf(db, id);
      AttemptUsesUp(env, id, db.rows[id]);
    }
    TotalIsMonotone(db.rows, after.rows, created);
    if |ids| > 0 {
      assert ids[0] in ids;
    }
  }

  lemma EmptyBatchMeansQuiescent(db: Db, created: seq<DeliveryId>, limit: nat)
    requires forall id :: id in created <==> id in db.rows
    requires limit > 0 && |Batch(db, created, db.rows.Keys, limit)| == 0
    ensures Quiescent(db)
  {
    forall id | id in db.rows && Waiting(db.rows[id].status) ensures !GateOpen(db, id) {
      assert !(id in Claimable(db, created, db.rows.Keys));
    }
  }

  /** A chain with nothing more to do: every channel failed, or exactly one tier went through. */
  ghost predicate Drained(db: Db, p: DeliveryPlan) {
    AllFailed(db, p) || exists w :: SettledOn(db, w, p) && db.rows[w].status in {Sent, Delivered}
  }

  lemma QuietChainsAreDrained(db: Db)
    requires Consistent(db) && Gated(db) && Quiescent(db) && NoneSending(db)
    ensures forall id :: id in db.rows ==> Drained(db, db.rows[id].plan)
  {
    hide Consistent, Gated, Quiescent, AllFailed;
    forall id | id in db.rows ensures Drained(db, db.rows[id].plan) {
      QuiescentChainSettles(db, db.rows[id].plan);
      if !AllFailed(db, db.rows[id].plan) {
        var w :| SettledOn(db, w, db.rows[id].plan);
      }
    }
  }

  lemma BatchIsFromCreated(db: Db, created: seq<DeliveryId>, due: set<DeliveryId>, limit: nat)
    ensures forall id :: id in Batch(db, created, due, limit) ==> id in created
  {
    hide Ready;
    assert forall id :: id in Batch(db, created, due, limit) ==> id in Claimable(db, created, due);
  }

  /** With every backoff elapsed, no worker dying and no database fault, polling ends, whatever the channels answer:
      after at most as many rounds as there are transitions left to make, plus one, every chain is drained. */
  method Drain(connection: Connection, repository: DeliveryRepository, env: Environment, batchSize: nat)
    returns (rounds: nat)
    requires NeverFails(connection)
    requires repository.Valid() && Gated(repository.Tables()) && NoneSending(repository.Tables()) && batchSize > 0
    modifies connection, repository`rows, repository`log
    ensures repository.Valid() && Gated(repository.Tables())
    ensures SamePlans(old(repository.Tables()), repository.Tables())
    ensures Quiescent(repository.Tables())
    ensures forall id :: id in repository.rows ==> Drained(repository.Tables(), repository.rows[id].plan)
    ensures rounds <= TotalRemaining(old(repository.rows), repository.created) + 1
  {
    hide Consistent, Gated, Batch, BatchResult, TotalRemaining, Quiescent, NoneSending, AllReady, Distinct, Drained;
    rounds := 0;
    while true
      invariant repository.Valid() && Gated(repository.Tables()) && NoneSending(repository.Tables())
      invariant SamePlans(old(repository.Tables()), repository.Tables())
      invariant rounds + TotalRemaining(repository.rows, repository.created)
                <= TotalRemaining(old(repository.rows), repository.created)
      decreases TotalRemaining(repository.rows, repository.created)
    {
      ghost var start := repository.Tables();
      ghost var ids := Batch(start, repository.created, repository.rows.Keys, batchSize);
      BatchFacts(start, repository.created, repository.rows.Keys, batchSize);
      BatchMakesProgress(env, start, repository.created, ids);
      var count, _, _ := ProcessBatch(connection, repository, env, repository.rows.Keys, batchSize);
      rounds := rounds + 1;
      if count == Some(0) {
        EmptyBatchMeansQuiescent(start, repository.created, batchSize);
        EmptyBatchChangesNothing(env, start, ids);
        break;
      }
    }
    QuietChainsAreDrained(repository.Tables());
  }

  lemma BatchFacts(db: Db, created: seq<DeliveryId>, due: set<DeliveryId>, limit: nat)
    requires Distinct(created)
    ensures var ids := Batch(db, created, due, limit);
            Distinct(ids) && AllReady(db, ids) && forall id :: id in ids ==> id in created
  {
    ClaimableIsReady(db, created, due, limit);
    BatchIsFromCreated(db, created, due, limit);
  }

  lemma EmptyBatchChangesNothing(env: Environment, db: Db, ids: seq<DeliveryId>)
    requires db.rows.Keys == db.log.Keys && |ids| == 0
    ensures BatchResult(env, db, ids) == db
  {
  }
}
