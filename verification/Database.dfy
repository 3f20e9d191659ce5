/** The delivery tables and the four ways they are written. Each write keeps two facts:
    every row is what its log replays to, and the fallback gate has been respected. */
module Database {
  import opened Prelude
  import opened Identifiers
  import opened Deliveries
  import opened DeliveryLog

  datatype Db = Db(rows: map<DeliveryId, DeliveryRow>, log: map<DeliveryId, seq<LogEntry>>)

  const EMPTY := Db(map[], map[])

  predicate SameChain(p: DeliveryPlan, q: DeliveryPlan) {
    p.alertId == q.alertId && p.consumerId == q.consumerId
  }

  /** A delivery is claimable only once every lower tier of its alert and consumer has failed for good. */
  predicate GateOpen(db: Db, id: DeliveryId)
    requires id in db.rows
  {
    forall e ::
      e in db.rows && SameChain(db.rows[e].plan, db.rows[id].plan) && db.rows[e].plan.tier < db.rows[id].plan.tier
      ==> db.rows[e].status == FailedPermanently
  }

  predicate Waiting(status: DeliveryStatus) {
    status == Queued || status == Retrying
  }

  predicate KeyTaken(db: Db, plan: DeliveryPlan) {
    exists e :: e in db.rows && IdempotencyKey(db.rows[e].plan) == IdempotencyKey(plan)
  }

  function Inserted(db: Db, id: DeliveryId, plan: DeliveryPlan): Db {
    Db(db.rows[id := Planned(plan).row], db.log[id := [Planned(plan).entry]])
  }

  /** The optimistic update: it takes effect only while the stored version is the one the change
      was computed from, and it writes the mutable columns only. */
  function CompareAndSet(db: Db, id: DeliveryId, change: Change): Db
    requires db.rows.Keys == db.log.Keys
  {
    if id in db.rows && db.rows[id].version + 1 == change.row.version
    then Db(
           db.rows[id := change.row.(plan := db.rows[id].plan)],
           db.log[id := db.log[id] + [change.entry]])
    else db
  }

  predicate Applies(db: Db, id: DeliveryId, change: Change) {
    id in db.rows && db.rows[id].version + 1 == change.row.version
  }

  ghost predicate Consistent(db: Db) {
    db.rows.Keys == db.log.Keys && forall id :: id in db.rows ==> Agrees(db.rows[id], db.log[id])
  }

  /** Whatever has left the queue found every lower tier of its chain failed, and still does. */
  ghost predicate Gated(db: Db) {
    forall d, e :: d in db.rows && e in db.rows && db.rows[d].status != Queued
                && SameChain(db.rows[e].plan, db.rows[d].plan) && db.rows[e].plan.tier < db.rows[d].plan.tier
                ==> db.rows[e].status == FailedPermanently
  }

  /** No stored delivery of the chain has a later tier. */
  ghost predicate LastOfItsChain(db: Db, plan: DeliveryPlan) {
    forall e :: e in db.rows && SameChain(db.rows[e].plan, plan) ==> db.rows[e].plan.tier <= plan.tier
  }

  /** A change that follows the stored row, and leaves the queue only through an open gate. */
  ghost predicate Sound(db: Db, id: DeliveryId, change: Change) {
    && id in db.rows
    && Step(db.rows[id], change.entry) == Some(change.row)
    && (db.rows[id].status == Queued ==> GateOpen(db, id))
  }

  lemma StepBasics(row: DeliveryRow, entry: LogEntry)
    requires Step(row, entry).Some?
    ensures Step(row, entry).value.plan == row.plan
    ensures Step(row, entry).value.version == row.version + 1 == entry.version
    ensures row.status != FailedPermanently && row.status != Delivered
    ensures Step(row, entry).value.status != Queued
  {
  }

  lemma ConsistentKeys(db: Db)
    requires Consistent(db)
    ensures db.rows.Keys == db.log.Keys
  {
  }

  lemma InsertIsConsistent(db: Db, id: DeliveryId, plan: DeliveryPlan)
    requires Consistent(db) && id !in db.rows && plan.maxAttempts > 0
    ensures Consistent(Inserted(db, id, plan))
  {
  }

  lemma InsertIsGated(db: Db, id: DeliveryId, plan: DeliveryPlan)
    requires Gated(db) && id !in db.rows && LastOfItsChain(db, plan)
    ensures Gated(Inserted(db, id, plan))
  {
  }

  lemma InsertClosesNoGate(db: Db, id: DeliveryId, plan: DeliveryPlan)
    requires id !in db.rows && LastOfItsChain(db, plan)
    ensures forall e :: e in db.rows && GateOpen(db, e) ==> GateOpen(Inserted(db, id, plan), e)
  {
    forall e | e in db.rows && GateOpen(db, e) ensures GateOpen(Inserted(db, id, plan), e) {
    }
  }

  lemma InsertKeeps(db: Db, id: DeliveryId, plan: DeliveryPlan)
    requires Consistent(db) && Gated(db)
    requires id !in db.rows && plan.maxAttempts > 0 && LastOfItsChain(db, plan)
    ensures Consistent(Inserted(db, id, plan)) && Gated(Inserted(db, id, plan))
    ensures forall e :: e in db.rows && GateOpen(db, e) ==> GateOpen(Inserted(db, id, plan), e)
  {
    hide Consistent, Gated, GateOpen, LastOfItsChain, Inserted;
    InsertIsConsistent(db, id, plan);
    InsertIsGated(db, id, plan);
    InsertClosesNoGate(db, id, plan);
  }

  lemma CompareAndSetKeeps(db: Db, id: DeliveryId, change: Change)
    requires Consistent(db) && Gated(db) && Sound(db, id, change)
    ensures Applies(db, id, change)
    ensures var after := CompareAndSet(db, id, change);
            && after == Db(db.rows[id := change.row], db.log[id := db.log[id] + [change.entry]])
            && Consistent(after)
            && Gated(after)
            && (forall e :: e in db.rows && GateOpen(db, e) ==> GateOpen(after, e))
  {
    StepBasics(db.rows[id], change.entry);
    AppendKeepsAgreement(db.rows[id], db.log[id], change.entry);
  }

  // ---- Fallback exclusion and quiescence, for any table that keeps the two facts ----

  predicate Active(status: DeliveryStatus) {
    status == Sending || status == Retrying || status == Sent || status == Delivered
  }

  /** At most one delivery of a chain is in progress or has succeeded, when tiers differ. */
  lemma AtMostOneActive(db: Db, d: DeliveryId, e: DeliveryId)
    requires Gated(db) && d in db.rows && e in db.rows
    requires SameChain(db.rows[d].plan, db.rows[e].plan) && db.rows[d].plan.tier != db.rows[e].plan.tier
    ensures !(Active(db.rows[d].status) && Active(db.rows[e].status))
  {
  }

  /** Nothing could be claimed, even with every backoff elapsed. */
  ghost predicate Quiescent(db: Db) {
    forall id :: id in db.rows && Waiting(db.rows[id].status) ==> !GateOpen(db, id)
  }

  ghost predicate InChain(db: Db, id: DeliveryId, p: DeliveryPlan) {
    id in db.rows && SameChain(db.rows[id].plan, p)
  }

  /** The chain has settled on `winner`, which was sent, was delivered, or was being sent when its
      worker died: lower tiers failed, higher tiers never left the queue, and nothing waits beside it. */
  ghost predicate SettledOn(db: Db, winner: DeliveryId, p: DeliveryPlan) {
    && InChain(db, winner, p)
    && db.rows[winner].status in {Sending, Sent, Delivered}
    && forall e :: InChain(db, e, p) ==>
         var row, tier := db.rows[e], db.rows[winner].plan.tier;
         && (row.plan.tier < tier ==> row.status == FailedPermanently)
         && (row.plan.tier == tier ==> !Waiting(row.status))
         && (row.plan.tier > tier ==> row.status == Queued && row.attemptCount == 0)
  }

  ghost predicate AllFailed(db: Db, p: DeliveryPlan) {
    forall e :: InChain(db, e, p) ==> db.rows[e].status == FailedPermanently
  }

  ghost predicate Settled(db: Db, p: DeliveryPlan) {
    AllFailed(db, p) || exists winner :: SettledOn(db, winner, p)
  }

  /** An unfailed delivery of the chain with the lowest tier. */
  lemma {:induction false} LowestUnfailed(db: Db, p: DeliveryPlan, id: DeliveryId) returns (lowest: DeliveryId)
    requires InChain(db, id, p) && db.rows[id].status != FailedPermanently
    ensures InChain(db, lowest, p) && db.rows[lowest].status != FailedPermanently
    ensures forall e :: InChain(db, e, p) && db.rows[e].plan.tier < db.rows[lowest].plan.tier ==>
              db.rows[e].status == FailedPermanently
    decreases db.rows[id].plan.tier
  {
    if e :| InChain(db, e, p) && db.rows[e].plan.tier < db.rows[id].plan.tier &&
            db.rows[e].status != FailedPermanently {
      lowest := LowestUnfailed(db, p, e);
    } else {
      lowest := id;
    }
  }

  lemma QuiescentChainSettles(db: Db, p: DeliveryPlan)
    requires Consistent(db) && Gated(db) && Quiescent(db)
    ensures Settled(db, p)
  {
    if id :| InChain(db, id, p) && db.rows[id].status != FailedPermanently {
      var w := LowestUnfailed(db, p, id);
      assert GateOpen(db, w);
      forall e | InChain(db, e, p)
        ensures db.rows[e].plan.tier == db.rows[w].plan.tier ==> !Waiting(db.rows[e].status)
        ensures db.rows[e].plan.tier > db.rows[w].plan.tier ==>
                  db.rows[e].status == Queued && db.rows[e].attemptCount == 0
      {
        Accounting(db.rows[e], db.log[e]);
        if db.rows[e].plan.tier == db.rows[w].plan.tier {
          assert GateOpen(db, e);
        }
      }
      assert SettledOn(db, w, p);
    }
  }

  /** Exactly what a quiet table looks like: nothing is left to claim if and only if every
      chain has failed throughout or has settled. */
  lemma QuiescentIffSettled(db: Db)
    requires Consistent(db) && Gated(db)
    ensures Quiescent(db) <==> forall id :: id in db.rows ==> Settled(db, db.rows[id].plan)
  {
    if Quiescent(db) {
      forall id | id in db.rows ensures Settled(db, db.rows[id].plan) {
        QuiescentChainSettles(db, db.rows[id].plan);
      }
    }
    if forall id :: id in db.rows ==> Settled(db, db.rows[id].plan) {
      forall id | id in db.rows && Waiting(db.rows[id].status) ensures !GateOpen(db, id) {
        var p := db.rows[id].plan;
        assert InChain(db, id, p);
        assert !AllFailed(db, p);
        var w :| SettledOn(db, w, p);
        assert db.rows[id].plan.tier > db.rows[w].plan.tier;
      }
    }
  }
}
