/** The delivery repository: the tables held as fields, each method one transaction. */
module Repository {
  import opened Prelude
  import opened Identifiers
  import opened Deliveries
  import opened DeliveryLog
  import opened Database
  import opened Webhook

  datatype WriteOutcome = Applied | Conflict

  /** The claim query: deliveries that wait, whose backoff has elapsed and whose gate is open,
      in the order they were created. */
  predicate Ready(db: Db, due: set<DeliveryId>, id: DeliveryId) {
    && id in db.rows
    && (db.rows[id].status == Queued || (db.rows[id].status == Retrying && id in due))
    && GateOpen(db, id)
  }

  function Claimable(db: Db, created: seq<DeliveryId>, due: set<DeliveryId>): (ids: seq<DeliveryId>)
    ensures forall id :: id in ids <==> id in created && Ready(db, due, id)
    ensures Distinct(created) ==> Distinct(ids)
  {
    if |created| == 0 then []
    else
      var front, last := created[..|created| - 1], created[|created| - 1];
      assert created == front + [last];
      if Ready(db, due, last) then Claimable(db, front, due) + [last] else Claimable(db, front, due)
  }

  /** What makes a delivery claimable: it is queued, or waits for a retry whose backoff has elapsed, and every lower
      tier of its alert and consumer has failed for good. */
  ghost predicate MayBeClaimed(rows: map<DeliveryId, DeliveryRow>, due: set<DeliveryId>, id: DeliveryId) {
    && id in rows
    && (rows[id].status == Queued || (rows[id].status == Retrying && id in due))
    && forall e ::
         && e in rows && rows[e].plan.alertId == rows[id].plan.alertId
         && rows[e].plan.consumerId == rows[id].plan.consumerId && rows[e].plan.tier < rows[id].plan.tier
         ==> rows[e].status == FailedPermanently
  }

  lemma ReadyIff(db: Db, due: set<DeliveryId>, id: DeliveryId)
    ensures Ready(db, due, id) <==> MayBeClaimed(db.rows, due, id)
  {
  }

  /** Of two claimable deliveries the one created first comes first. */
  lemma {:induction false} ClaimableInOrder(
    db: Db, created: seq<DeliveryId>, due: set<DeliveryId>, a: nat, b: nat, q: nat) returns (p: nat)
    requires Distinct(created) && a < b < |created| && Ready(db, due, created[a])
    requires q < |Claimable(db, created, due)| && Claimable(db, created, due)[q] == created[b]
    ensures p < q && Claimable(db, created, due)[p] == created[a]
  {
    hide Ready;
    var front, last := created[..|created| - 1], created[|created| - 1];
    var before := Claimable(db, front, due);
    assert created == front + [last];
    if b < |front| {
      assert created[b] != last;
      p := ClaimableInOrder(db, front, due, a, b, q);
    } else {
      assert forall x :: x in before ==> x in front;
      assert front[a] in front;
      p :| 0 <= p < |before| && before[p] == created[a];
    }
  }

  /** A claim takes the claimable deliveries created first, in that order, up to the limit. */
  ghost predicate TakesFirst(
    rows: map<DeliveryId, DeliveryRow>, created: seq<DeliveryId>, due: set<DeliveryId>, limit: nat,
    ids: seq<DeliveryId>)
  {
    && |ids| <= limit
    && (forall i :: 0 <= i < |ids| ==> ids[i] in created && MayBeClaimed(rows, due, ids[i]))
    && (forall i, a, b ::
          0 <= i < |ids| && 0 <= a < b < |created| && created[b] == ids[i] && MayBeClaimed(rows, due, created[a])
          ==> created[a] in ids[..i])
    && (|ids| < limit ==> forall a :: 0 <= a < |created| && MayBeClaimed(rows, due, created[a]) ==> created[a] in ids)
  }

  lemma ClaimTakesFirst(db: Db, created: seq<DeliveryId>, due: set<DeliveryId>, limit: nat)
    requires Distinct(created)
    ensures TakesFirst(db.rows, created, due, limit, Page(Claimable(db, created, due), limit, 0))
  {
    hide Ready, MayBeClaimed;
    var ready := Claimable(db, created, due);
    var ids := Page(ready, limit, 0);
    assert ids == ready[..|ids|];
    forall id ensures Ready(db, due, id) <==> MayBeClaimed(db.rows, due, id) {
      ReadyIff(db, due, id);
    }
    forall i | 0 <= i < |ids| ensures ids[i] in created && MayBeClaimed(db.rows, due, ids[i]) {
      assert ready[i] in ready;
    }
    forall i, a, b |
      0 <= i < |ids| && 0 <= a < b < |created| && created[b] == ids[i] && MayBeClaimed(db.rows, due, created[a])
      ensures created[a] in ids[..i]
    {
      var p := ClaimableInOrder(db, created, due, a, b, i);
      assert ids[..i][p] == created[a];
    }
    if |ids| < limit {
      assert ids == ready;
    }
  }

  /** Starting one attempt on each of `ids`, in order. */
  function StartAll(db: Db, ids: seq<DeliveryId>): (after: Db)
    requires db.rows.Keys == db.log.Keys
    ensures after.rows.Keys == after.log.Keys == db.rows.Keys
  {
    if |ids| == 0 then db
    else
      var before, id := StartAll(db, ids[..|ids| - 1]), ids[|ids| - 1];
      if id in before.rows && Started(before.rows[id]).Success?
      then CompareAndSet(before, id, Started(before.rows[id]).value)
      else before
  }

  /** The rows named by `ids` have an attempt started, all others are as they were. */
  ghost predicate AttemptsStarted(db: Db, after: Db, ids: seq<DeliveryId>) {
    && after.rows.Keys == db.rows.Keys
    && (forall id :: id in db.rows && id !in ids ==> after.rows[id] == db.rows[id])
    && (forall id :: id in db.rows && id in ids ==>
          Started(db.rows[id]).Success? && after.rows[id] == Started(db.rows[id]).value.row)
  }

  ghost predicate GatesKept(db: Db, after: Db)
    requires after.rows.Keys == db.rows.Keys
  {
    forall id :: id in db.rows && GateOpen(db, id) ==> GateOpen(after, id)
  }

  ghost predicate AllReady(db: Db, ids: seq<DeliveryId>) {
    forall id :: id in ids ==> id in db.rows && Waiting(db.rows[id].status) && GateOpen(db, id)
  }

  lemma AttemptsStartedSnoc(db: Db, before: Db, after: Db, front: seq<DeliveryId>, id: DeliveryId)
    requires AttemptsStarted(db, before, front) && id in db.rows && id !in front
    requires Started(db.rows[id]).Success? && after.rows == before.rows[id := Started(db.rows[id]).value.row]
    ensures AttemptsStarted(db, after, front + [id])
  {
    hide Started;
  }

  /** A start counts one more attempt and the delivery is being sent; nothing else of it changes. */
  lemma StartedExactly(db: Db, after: Db, ids: seq<DeliveryId>)
    requires AttemptsStarted(db, after, ids)
    ensures forall id :: id in db.rows ==>
              && id in after.rows
              && after.rows[id] ==
                 if id in ids then
                   db.rows[id].(status := Sending, attemptCount := db.rows[id].attemptCount + 1,
                                version := db.rows[id].version + 1)
                 else db.rows[id]
  {
  }

  lemma AllReadyPrefix(db: Db, front: seq<DeliveryId>, id: DeliveryId)
    requires Distinct(front + [id]) && AllReady(db, front + [id])
    ensures Distinct(front) && AllReady(db, front) && id !in front
    ensures id in db.rows && Waiting(db.rows[id].status) && GateOpen(db, id)
  {
    hide GateOpen;
    assert forall x :: x in front ==> x in front + [id];
    assert id in front + [id];
    assert forall i :: 0 <= i < |front| ==> (front + [id])[i] == front[i];
    assert (front + [id])[|front|] == id;
  }

  lemma {:induction false} StartAllKeeps(db: Db, ids: seq<DeliveryId>)
    requires Consistent(db) && Gated(db) && Distinct(ids) && AllReady(db, ids)
    ensures db.rows.Keys == db.log.Keys
    ensures var after := StartAll(db, ids);
            Consistent(after) && Gated(after) && AttemptsStarted(db, after, ids) && GatesKept(db, after)
  {
    hide Consistent, Gated, GateOpen, CompareAndSet, Started, AllReady, Distinct;
    ConsistentKeys(db);
    if |ids| > 0 {
      var front, id := ids[..|ids| - 1], ids[|ids| - 1];
      assert ids == front + [id];
      AllReadyPrefix(db, front, id);
      StartAllKeeps(db, front);
      var before := StartAll(db, front);
      assert before.rows[id] == db.rows[id];
      StartOneKeeps(before, id);
      AttemptsStartedSnoc(db, before, StartAll(db, ids), front, id);
    }
  }

  lemma ReadyPrefixes(db: Db, ids: seq<DeliveryId>, n: nat)
    requires Distinct(ids) && AllReady(db, ids) && n <= |ids|
    ensures Distinct(ids[..n]) && AllReady(db, ids[..n])
    ensures n < |ids| ==> ids[n] !in ids[..n] && ids[n] in db.rows && Waiting(db.rows[ids[n]].status)
  {
    hide GateOpen;
    assert forall x :: x in ids[..n] ==> x in ids;
    assert n < |ids| ==> ids[n] in ids;
  }

  lemma StartSnoc(db: Db, front: seq<DeliveryId>, id: DeliveryId)
    requires db.rows.Keys == db.log.Keys
    ensures var before := StartAll(db, front);
            StartAll(db, front + [id]) ==
              if id in before.rows && Started(before.rows[id]).Success?
              then CompareAndSet(before, id, Started(before.rows[id]).value)
              else before
  {
    assert (front + [id])[..|front|] == front;
    hide CompareAndSet, Started;
  }

  lemma WaitingStarts(row: DeliveryRow)
    requires Waiting(row.status)
    ensures Started(row).Success?
    ensures Started(row).value.row.version == row.version + 1
  {
  }

  /** The next start of a claim finds its row as the query saw it. */
  lemma NextStart(db: Db, ids: seq<DeliveryId>, n: nat)
    requires Consistent(db) && Gated(db) && Distinct(ids) && AllReady(db, ids) && n < |ids|
    ensures db.rows.Keys == db.log.Keys && ids[n] in db.rows && Waiting(db.rows[ids[n]].status)
    ensures var before, id := StartAll(db, ids[..n]), ids[n];
            && before.rows.Keys == db.rows.Keys
            && before.rows[id] == db.rows[id]
            && Started(before.rows[id]).Success?
            && StartAll(db, ids[..n + 1]) == CompareAndSet(before, id, Started(before.rows[id]).value)
  {
    hide Consistent, Gated, GateOpen, Distinct, AllReady, CompareAndSet, StartAll, Started, Waiting;
    ConsistentKeys(db);
    ReadyPrefixes(db, ids, n);
    StartAllKeeps(db, ids[..n]);
    WaitingStarts(db.rows[ids[n]]);
    StartSnoc(db, ids[..n], ids[n]);
    assert ids[..n + 1] == ids[..n] + [ids[n]];
  }

  lemma ClaimableIsReady(db: Db, created: seq<DeliveryId>, due: set<DeliveryId>, limit: nat)
    requires Distinct(created)
    ensures var ids := Page(Claimable(db, created, due), limit, 0);
            Distinct(ids) && AllReady(db, ids) && |ids| <= limit
  {
    var ready := Claimable(db, created, due);
    var ids := Page(ready, limit, 0);
    assert AllReady(db, ready);
    assert ids == ready[..|ids|];
    hide GateOpen, Ready, Claimable;
    ReadyPrefixes(db, ready, |ids|);
  }

  lemma StartOneKeeps(db: Db, id: DeliveryId)
    requires Consistent(db) && Gated(db) && id in db.rows && Waiting(db.rows[id].status) && GateOpen(db, id)
    ensures db.rows.Keys == db.log.Keys && Started(db.rows[id]).Success?
    ensures var after := CompareAndSet(db, id, Started(db.rows[id]).value);
            && Consistent(after) && Gated(after)
            && after.rows == db.rows[id := Started(db.rows[id]).value.row]
            && GatesKept(db, after)
  {
    CompareAndSetKeeps(db, id, Started(db.rows[id]).value);
  }

  function PlansOf(rows: map<DeliveryId, DeliveryRow>, ids: seq<DeliveryId>): seq<DeliveryPlan>
    requires forall id :: id in ids ==> id in rows
  {
    seq(|ids|, i requires 0 <= i < |ids| => rows[ids[i]].plan)
  }

  lemma StartNone(db: Db, ids: seq<DeliveryId>)
    requires db.rows.Keys == db.log.Keys && ids == []
    ensures StartAll(db, ids) == db
  {
  }

  /** The entry is a successful attempt under the message id. */
  predicate IsSendAs(entry: LogEntry, message: string) {
    entry.attempt.Some? && entry.attempt.value.outcome == SentAs(Some(message))
  }

  /** No successful attempt under the message id, of whichever delivery, has a higher number. */
  ghost predicate IsLatestSend(log: map<DeliveryId, seq<LogEntry>>, message: string, entry: LogEntry) {
    && IsSendAs(entry, message)
    && forall id, i :: id in log && 0 <= i < |log[id]| && IsSendAs(log[id][i], message) ==>
         log[id][i].attempt.value.number <= entry.attempt.value.number
  }

  lemma SendIsUnder(db: Db, id: DeliveryId, i: nat, message: string)
    requires id in db.log && i < |db.log[id]| && IsSendAs(db.log[id][i], message)
    ensures SentUnder(db, id, message, db.log[id][i].attempt.value.number)
  {
  }

  lemma FoundIsLatest(db: Db, message: string, id: DeliveryId)
    requires Finds(db, message, id)
    ensures id in db.log && exists i :: 0 <= i < |db.log[id]| && IsLatestSend(db.log, message, db.log[id][i])
  {
    var n: nat :| SentUnder(db, id, message, n) && forall e, k: nat :: SentUnder(db, e, message, k) ==> k <= n;
    var i :| 0 <= i < |db.log[id]| && db.log[id][i].attempt == Some(DeliveryAttempt(n, SentAs(Some(message))));
    forall e, j | e in db.log && 0 <= j < |db.log[e]| && IsSendAs(db.log[e][j], message)
      ensures db.log[e][j].attempt.value.number <= n
    {
      SendIsUnder(db, e, j, message);
    }
    assert IsLatestSend(db.log, message, db.log[id][i]);
  }

  class DeliveryRepository {
    var rows: map<DeliveryId, DeliveryRow>
    var log: map<DeliveryId, seq<LogEntry>>
    var created: seq<DeliveryId>
    var nextId: nat

    ghost function Tables(): Db
      reads this
    {
      Db(rows, log)
    }

    ghost predicate Valid()
      reads this
    {
      && Consistent(Tables())
      && Distinct(created)
      && (forall id :: id in created <==> id in rows)
      && (forall id :: id in rows ==> id.number < nextId)
    }

    /** The object is an up-to-date copy of a row that is being sent. */
    ghost predicate Holds(delivery: Delivery, id: DeliveryId)
      reads this, delivery
    {
      delivery.id == id && id in rows && delivery.Row() == rows[id] && delivery.status == Sending
    }

    /** The plans on record, in the order their deliveries were created. */
    ghost function Plans(): seq<DeliveryPlan>
      requires Valid()
      reads this
    {
      PlansOf(rows, created)
    }

    constructor ()
      ensures Valid() && Tables() == EMPTY && created == []
    {
      rows, log, created, nextId := map[], map[], [], 0;
    }

    /** One planned delivery, unless its idempotency key is already on record. */
    method Create(plan: DeliveryPlan) returns (inserted: bool)
      requires Valid() && plan.maxAttempts > 0
      modifies this
      ensures Valid()
      ensures inserted <==> !KeyTaken(old(Tables()), plan)
      ensures !inserted ==> Tables() == old(Tables()) && Plans() == old(Plans())
      ensures inserted ==>
                exists id ::
                  id !in old(rows) && Tables() == Inserted(old(Tables()), id, plan) && created == old(created) + [id]
      ensures inserted ==> Plans() == old(Plans()) + [plan]
      ensures inserted ==>
                exists id ::
                  && id !in old(rows)
                  && rows == old(rows)[id := DeliveryRow(plan, Queued, 0, 1)]
                  && log == old(log)[id := [LogEntry(DeliveryRequested, 1, None)]]
    {
      hide Consistent, KeyTaken, IdempotencyKey;
      if KeyTaken(Db(rows, log), plan) {
        return false;
      }
      var id := DeliveryId(nextId);
      assert id !in rows;
      InsertIsConsistent(Tables(), id, plan);
      ghost var before := Tables();
      ghost var beforeCreated := created;
      nextId := nextId + 1;
      rows := rows[id := DeliveryRow(plan, Queued, 0, 1)];
      log := log[id := [LogEntry(DeliveryRequested, 1, None)]];
      created := created + [id];
      assert Tables() == Inserted(before, id, plan);
      assert PlansOf(rows, created) == PlansOf(before.rows, beforeCreated) + [plan];
      return true;
    }

    /** The optimistic write shared by both kinds of transition. */
    method ApplyTransition(delivery: Delivery, entry: LogEntry) returns (outcome: WriteOutcome)
      requires rows.Keys == log.Keys
      modifies this`rows, this`log
      ensures Tables() == CompareAndSet(old(Tables()), delivery.id, Change(delivery.Row(), entry))
      ensures outcome == Applied <==> Applies(old(Tables()), delivery.id, Change(delivery.Row(), entry))
      ensures outcome == Applied <==>
                delivery.id in old(rows) && old(rows)[delivery.id].version + 1 == delivery.version
      ensures outcome == Conflict ==> rows == old(rows) && log == old(log)
      ensures outcome == Applied ==>
                && rows == old(rows)[delivery.id := old(rows)[delivery.id].(
                     status := delivery.status, attemptCount := delivery.attemptCount, version := delivery.version)]
                && log == old(log)[delivery.id := old(log)[delivery.id] + [entry]]
    {
      if delivery.id !in rows || rows[delivery.id].version != delivery.version - 1 {
        return Conflict;
      }
      var stored := rows[delivery.id];
      rows := rows[delivery.id := stored.(
        status := delivery.status, attemptCount := delivery.attemptCount, version := delivery.version)];
      log := log[delivery.id := log[delivery.id] + [entry]];
      return Applied;
    }

    /** Loads and starts each selected delivery, writing every start back. */
    method StartSelected(ids: seq<DeliveryId>) returns (claimed: seq<Delivery>)
      requires Consistent(Tables()) && Gated(Tables()) && Distinct(ids) && AllReady(Tables(), ids)
      modifies this`rows, this`log
      ensures old(rows).Keys == old(log).Keys
      ensures Tables() == StartAll(old(Tables()), ids)
      ensures |claimed| == |ids| && forall i :: 0 <= i < |ids| ==> Holds(claimed[i], ids[i]) && fresh(claimed[i])
      ensures forall i, j :: 0 <= i < j < |claimed| ==> claimed[i] != claimed[j]
    {
      hide Consistent, Gated, GateOpen, AllReady, Distinct, StartAll, CompareAndSet, Started;
      ghost var start := Tables();
      ConsistentKeys(start);
      StartNone(start, ids[..0]);
      claimed := [];
      for n := 0 to |ids|
        invariant rows.Keys == log.Keys
        invariant Tables() == StartAll(start, ids[..n])
        invariant |claimed| == n
        invariant forall i :: 0 <= i < n ==> fresh(claimed[i]) && Holds(claimed[i], ids[i])
        invariant forall i, j :: 0 <= i < j < n ==> claimed[i] != claimed[j]
      {
        var id := ids[n];
        NextStart(start, ids, n);
        ReadyPrefixes(start, ids, n);
        forall i | 0 <= i < n ensures ids[i] != id {
          assert ids[i] == ids[..n][i];
        }
        var delivery := new Delivery.Reconstitute(id, rows[id]);
        StartLoaded(delivery);
        claimed := claimed + [delivery];
      }
      assert ids[..|ids|] == ids;
    }

    /** One selected row: started in memory, then written, which the row's lock makes certain to apply. */
    method StartLoaded(delivery: Delivery)
      requires rows.Keys == log.Keys && delivery.id in rows && delivery.Row() == rows[delivery.id]
      requires Waiting(delivery.status)
      modifies this`rows, this`log, delivery
      ensures var started := Started(old(rows)[delivery.id]).value;
              && Tables() == CompareAndSet(old(Tables()), delivery.id, started)
              && rows == old(rows)[delivery.id := started.row]
      ensures Holds(delivery, delivery.id)
    {
      var entry := delivery.StartAttempt();
      var outcome := ApplyTransition(delivery, entry.value);
      assert outcome == Applied;
    }

    /** Claims up to `limit` ready deliveries, starting an attempt on each. */
    method ClaimNext(limit: nat, due: set<DeliveryId>) returns (claimed: seq<Delivery>)
      requires Valid() && Gated(Tables())
      modifies this`rows, this`log
      ensures Valid() && Gated(Tables())
      ensures var ids := Page(Claimable(old(Tables()), created, due), limit, 0);
              && Tables() == StartAll(old(Tables()), ids)
              && |claimed| == |ids|
              && forall i :: 0 <= i < |ids| ==> Holds(claimed[i], ids[i]) && fresh(claimed[i])
      ensures forall i, j :: 0 <= i < j < |claimed| ==> claimed[i] != claimed[j]
      ensures var ids := Page(Claimable(old(Tables()), created, due), limit, 0);
              && TakesFirst(old(rows), created, due, limit, ids)
              && forall id :: id in old(rows) ==>
                   && id in rows
                   && rows[id] ==
                      if id in ids then
                        old(rows)[id].(status := Sending, attemptCount := old(rows)[id].attemptCount + 1,
                                       version := old(rows)[id].version + 1)
                      else old(rows)[id]
    {
      hide Consistent, Gated, GateOpen, TakesFirst, Claimable, AllReady, Distinct, Page, StartAll,
        AttemptsStarted, GatesKept;
      var ids := Page(Claimable(Db(rows, log), created, due), limit, 0);
      ghost var start := Tables();
      ClaimableIsReady(start, created, due, limit);
      ClaimTakesFirst(start, created, due, limit);
      StartAllKeeps(start, ids);
      StartedExactly(start, StartAll(start, ids), ids);
      claimed := StartSelected(ids);
    }

    /** The delivery a provider message id refers to: the one whose matching attempt has the highest number. */
    method FindByProviderMessageId(message: string) returns (found: Option<Delivery>)
      requires Valid()
      ensures found.Some? ==>
                fresh(found.value) && Finds(Tables(), message, found.value.id)
                && found.value.id in rows && found.value.Row() == rows[found.value.id]
      ensures found.None? ==> forall id, n: nat :: !SentUnder(Tables(), id, message, n)
      ensures found.Some? ==>
                && found.value.id in log
                && exists i :: 0 <= i < |log[found.value.id]| && IsLatestSend(log, message, log[found.value.id][i])
      ensures found.None? ==>
                forall id, i :: id in log && 0 <= i < |log[id]| ==> !IsSendAs(log[id][i], message)
    {
      var best: Option<(DeliveryId, nat)> := None;
      for k := 0 to |created|
        invariant best.Some? ==> SentUnder(Tables(), best.value.0, message, best.value.1)
        invariant best.Some? ==> best.value.0 in rows
        invariant forall j, n: nat :: 0 <= j < k && SentUnder(Tables(), created[j], message, n) ==>
                    best.Some? && n <= best.value.1
      {
        var id := created[k];
        assert id in created;
        for i := 0 to |log[id]|
          invariant best.Some? ==> SentUnder(Tables(), best.value.0, message, best.value.1)
          invariant best.Some? ==> best.value.0 in rows
          invariant forall j, n: nat :: 0 <= j < k && SentUnder(Tables(), created[j], message, n) ==>
                      best.Some? && n <= best.value.1
          invariant forall j, n: nat ::
                      0 <= j < i && log[id][j].attempt == Some(DeliveryAttempt(n, SentAs(Some(message)))) ==>
                      best.Some? && n <= best.value.1
        {
          match log[id][i].attempt
          case Some(DeliveryAttempt(number, SentAs(Some(m)))) =>
            if m == message && (best.None? || number > best.value.1) {
              best := Some((id, number));
              assert SentUnder(Tables(), id, message, number);
            }
          case _ =>
        }
      }
      forall id, n: nat | SentUnder(Tables(), id, message, n) ensures best.Some? && n <= best.value.1 {
        assert id in created;
      }
      if best.None? {
        forall id, i | id in log && 0 <= i < |log[id]| ensures !IsSendAs(log[id][i], message) {
          if IsSendAs(log[id][i], message) {
            SendIsUnder(Tables(), id, i, message);
          }
        }
        return None;
      }
      FoundIsLatest(Tables(), message, best.value.0);
      var delivery := new Delivery.Reconstitute(best.value.0, rows[best.value.0]);
      return Some(delivery);
    }
  }
}
