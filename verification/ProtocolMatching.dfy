/** Matching workers keep the protocol's invariant. */
module ProtocolMatching {
  import opened Prelude
  import opened Identifiers
  import opened Deliveries
  import opened DeliveryLog
  import opened Database
  import opened Planning
  import opened Webhook
  import opened Protocol

  lemma NewAlertKeeps(s: State, alert: AlertId)
    requires Inv(s) && Enabled(s, NewAlert(alert))
    ensures Inv(Perform(s, NewAlert(alert)))
  {
    hide Consistent, Gated, AlertPlanOk, ApartFrom, WorkerInv, HandlerInv;
    var outbox := s.outbox[alert := Unclaimed];
    forall t | t in s.threads && s.threads[t].Matcher? ensures MatcherOk(outbox, s.matched, s.threads[t]) {
      assert MatcherOk(s.outbox, s.matched, s.threads[t]);
    }
  }

  // ---- Claiming a batch of events ----

  function ClaimAll(outbox: OutboxTable, batch: seq<AlertId>): OutboxTable {
    outbox + (map a | a in batch :: Claimed)
  }

  lemma PlansSurviveClaim(db: Db, outbox: OutboxTable, matched: AlertPlans, batch: seq<AlertId>)
    requires PlanInv(db, outbox, matched)
    requires forall a :: a in batch ==> a in outbox && outbox[a] == Unclaimed
    ensures PlanInv(db, ClaimAll(outbox, batch), matched)
  {
    hide AlertPlanOk;
  }

  lemma MatchersSurviveClaim(outbox: OutboxTable, matched: AlertPlans, batch: seq<AlertId>, thread: Thread)
    requires thread.Matcher? && MatcherOk(outbox, matched, thread)
    requires forall a :: a in batch ==> a in outbox && outbox[a] == Unclaimed
    ensures MatcherOk(ClaimAll(outbox, batch), matched, thread)
    ensures ApartFrom(thread, Matcher(batch, 0, Idle)) && ApartFrom(Matcher(batch, 0, Idle), thread)
  {
    forall a | a in thread.batch ensures a !in batch {
      var i :| 0 <= i < |thread.batch| && thread.batch[i] == a;
      assert outbox[thread.batch[i]] != Unclaimed;
    }
  }

  lemma NewMatcherOk(db: Db, outbox: OutboxTable, matched: AlertPlans, batch: seq<AlertId>)
    requires PlanInv(db, outbox, matched) && Distinct(batch)
    requires forall a :: a in batch ==> a in outbox && outbox[a] == Unclaimed
    ensures MatcherOk(ClaimAll(outbox, batch), matched, Matcher(batch, 0, Idle))
  {
    hide AlertPlanOk;
    forall i | 0 <= i < |batch|
      ensures batch[i] !in matched
      ensures batch[i] in ClaimAll(outbox, batch) && ClaimAll(outbox, batch)[batch[i]] == Claimed
    {
      assert batch[i] in batch;
    }
  }

  lemma UnclaimedMembers(s: State, batch: seq<AlertId>)
    requires AllUnclaimed(s, batch)
    ensures forall a :: a in batch ==> a in s.outbox && s.outbox[a] == Unclaimed
  {
  }

  lemma ClaimEventsKeeps(s: State, t: ThreadId, batch: seq<AlertId>)
    requires Inv(s) && Enabled(s, ClaimEvents(t, batch))
    ensures Inv(Perform(s, ClaimEvents(t, batch)))
  {
    hide Consistent, Gated, PlanInv, MatcherOk, ApartFrom, WorkerOk, HandlerOk, SameClaim, Distinct, AllUnclaimed,
      WorkerInv, HandlerInv;
    UnclaimedMembers(s, batch);
    PlansSurviveClaim(s.db, s.outbox, s.matched, batch);
    NewMatcherOk(s.db, s.outbox, s.matched, batch);
    forall u | u in s.threads && s.threads[u].Matcher?
      ensures MatcherOk(ClaimAll(s.outbox, batch), s.matched, s.threads[u])
      ensures ApartFrom(s.threads[u], Matcher(batch, 0, Idle)) && ApartFrom(Matcher(batch, 0, Idle), s.threads[u])
    {
      MatchersSurviveClaim(s.outbox, s.matched, batch, s.threads[u]);
    }
    NewThreadKeepsOthers(s.db, s.replay, s.threads, t, Matcher(batch, 0, Idle));
    forall u | u in s.threads && !s.threads[u].Matcher?
      ensures ApartFrom(s.threads[u], Matcher(batch, 0, Idle)) && ApartFrom(Matcher(batch, 0, Idle), s.threads[u])
    {
      NonMatchersAreApart(s.threads[u], Matcher(batch, 0, Idle));
    }
  }

  lemma NonMatchersAreApart(one: Thread, other: Thread)
    requires !one.Matcher? || !other.Matcher?
    ensures ApartFrom(one, other) && ApartFrom(other, one)
  {
  }

  /** A matcher holds no delivery, so adding or advancing one concerns no dispatcher or handler. */
  lemma NewThreadKeepsOthers(db: Db, replay: set<ReplayKey>, threads: Threads, t: ThreadId, thread: Thread)
    requires WorkerInv(db, threads) && HandlerInv(db, replay, threads) && thread.Matcher?
    ensures WorkerInv(db, threads[t := thread]) && HandlerInv(db, replay, threads[t := thread])
  {
    hide GateOpen;
  }

  // ---- Planning, inserting, publishing ----

  /** Another matcher's batch is untouched by what happens to an alert of this one's. */
  lemma OtherMatchersUnaffected(
    outbox: OutboxTable, matched: AlertPlans, outbox': OutboxTable, matched': AlertPlans, a: AlertId, thread: Thread)
    requires thread.Matcher? && MatcherOk(outbox, matched, thread) && a !in thread.batch
    requires outbox' == outbox || (a in outbox' && outbox' == outbox[a := outbox'[a]])
    requires matched' == matched || (a in matched' && matched' == matched[a := matched'[a]])
    ensures MatcherOk(outbox', matched', thread)
  {
    forall i | 0 <= i < |thread.batch| ensures thread.batch[i] != a {
      assert thread.batch[i] in thread.batch;
    }
  }

  lemma ReplaceMatcher(
    outbox: OutboxTable, matched: AlertPlans, outbox': OutboxTable, matched': AlertPlans,
    threads: Threads, t: ThreadId, thread: Thread)
    requires MatcherInv(outbox, matched, threads)
    requires t in threads && threads[t].Matcher? && threads[t].next < |threads[t].batch|
    requires thread.Matcher? && thread.batch == threads[t].batch && MatcherOk(outbox', matched', thread)
    requires var a := threads[t].batch[threads[t].next];
             && (outbox' == outbox || (a in outbox' && outbox' == outbox[a := outbox'[a]]))
             && (matched' == matched || (a in matched' && matched' == matched[a := matched'[a]]))
    ensures MatcherInv(outbox', matched', threads[t := thread])
  {
    var a := threads[t].batch[threads[t].next];
    hide MatcherOk;
    assert a in threads[t].batch;
    forall u | u in threads && u != t
      ensures threads[u].Matcher? ==> MatcherOk(outbox', matched', threads[u])
      ensures ApartFrom(threads[u], thread) && ApartFrom(thread, threads[u])
    {
      assert ApartFrom(threads[t], threads[u]) && ApartFrom(threads[u], threads[t]);
      if threads[u].Matcher? {
        assert MatcherOk(outbox, matched, threads[u]);
        OtherMatchersUnaffected(outbox, matched, outbox', matched', a, threads[u]);
      }
    }
  }

  lemma PlansSurviveMatch(db: Db, outbox: OutboxTable, matched: AlertPlans, a: AlertId, m: AlertPlan)
    requires PlanInv(db, outbox, matched)
    requires a in outbox && outbox[a] == Claimed && a !in matched && m.ids == []
    requires WellFormedPlan(a, m.preferences, m.plan)
    ensures PlanInv(db, outbox, matched[a := m])
  {
    hide WellFormedPlan;
  }

  lemma CurrentFacts(outbox: OutboxTable, matched: AlertPlans, threads: Threads, t: ThreadId)
    requires MatcherInv(outbox, matched, threads)
    requires t in threads && threads[t].Matcher? && threads[t].next < |threads[t].batch|
    ensures var Matcher(batch, next, phase) := threads[t];
            var a := batch[next];
            && a in outbox && outbox[a] == Claimed
            && match phase
               case Idle => a !in matched
               case Inserting(done) => a in matched && |matched[a].ids| == done
  {
    assert MatcherOk(outbox, matched, threads[t]);
  }

  lemma MatcherIsOk(outbox: OutboxTable, matched: AlertPlans, threads: Threads, t: ThreadId)
    requires MatcherInv(outbox, matched, threads) && t in threads && threads[t].Matcher?
    ensures MatcherOk(outbox, matched, threads[t])
  {
  }

  lemma MatcherPlans(outbox: OutboxTable, matched: AlertPlans, thread: Thread, m: AlertPlan)
    requires thread.Matcher? && MatcherOk(outbox, matched, thread)
    requires thread.next < |thread.batch| && m.ids == []
    ensures MatcherOk(outbox, matched[thread.batch[thread.next] := m], thread.(phase := Inserting(0)))
  {
  }

  lemma MatchKeeps(s: State, t: ThreadId, preferences: Preferences, plan: seq<DeliveryPlan>)
    requires Inv(s) && Enabled(s, Match(t, preferences, plan))
    ensures Inv(Perform(s, Match(t, preferences, plan)))
    ensures Current(s, t) !in s.matched
  {
    hide Consistent, Gated, PlanInv, MatcherOk, MatcherInv, WorkerInv, HandlerInv, WellFormedPlan, ValidPreferences;
    var a, m, thread := Current(s, t), AlertPlan(preferences, plan, []), s.threads[t].(phase := Inserting(0));
    MatcherIsOk(s.outbox, s.matched, s.threads, t);
    CurrentFacts(s.outbox, s.matched, s.threads, t);
    PlansSurviveMatch(s.db, s.outbox, s.matched, a, m);
    MatcherPlans(s.outbox, s.matched, s.threads[t], m);
    ReplaceMatcher(s.outbox, s.matched, s.outbox, s.matched[a := m], s.threads, t, thread);
    NewThreadKeepsOthers(s.db, s.replay, s.threads, t, thread);
  }

  lemma NextFacts(db: Db, outbox: OutboxTable, matched: AlertPlans, a: AlertId, e: DeliveryId)
    requires PlanInv(db, outbox, matched) && a in matched && |matched[a].ids| < |matched[a].plan|
    requires e in db.rows && db.rows[e].plan.alertId == a
    ensures WellFormedPlan(a, matched[a].preferences, matched[a].plan)
    ensures exists i :: 0 <= i < |matched[a].ids| && db.rows[e].plan == matched[a].plan[i]
  {
    hide WellFormedPlan;
    var m := matched[a];
    assert AlertPlanOk(db, a, m);
    var i :| 0 <= i < |m.ids| && m.ids[i] == e;
  }

  /** The conflict branch of an insert is never taken: a plan's keys are new when its turn comes. */
  lemma KeyIsFree(db: Db, outbox: OutboxTable, matched: AlertPlans, a: AlertId)
    requires PlanInv(db, outbox, matched) && a in matched && |matched[a].ids| < |matched[a].plan|
    ensures !KeyTaken(db, matched[a].plan[|matched[a].ids|])
  {
    hide PlanInv, IdempotencyKey, WellFormedPlan;
    var m := matched[a];
    var p := m.plan[|m.ids|];
    NextInPlan(db, outbox, matched, a);
    forall e | e in db.rows ensures IdempotencyKey(db.rows[e].plan) != IdempotencyKey(p) {
      KeyDeterminesEndpoint(db.rows[e].plan, p);
      if db.rows[e].plan.alertId == a {
        NextFacts(db, outbox, matched, a, e);
        var i :| 0 <= i < |m.ids| && db.rows[e].plan == m.plan[i];
        PlanKeysDistinct(a, m.preferences, m.plan, i, |m.ids|);
      }
    }
  }

  lemma NextInPlan(db: Db, outbox: OutboxTable, matched: AlertPlans, a: AlertId)
    requires PlanInv(db, outbox, matched) && a in matched && |matched[a].ids| < |matched[a].plan|
    ensures matched[a].plan[|matched[a].ids|].alertId == a
    ensures matched[a].plan[|matched[a].ids|].maxAttempts > 0
  {
    assert AlertPlanOk(db, a, matched[a]);
  }

  lemma TiersRise(a: AlertId, preferences: Preferences, plan: seq<DeliveryPlan>, i: nat, j: nat)
    requires WellFormedPlan(a, preferences, plan) && i < j < |plan| && plan[i].consumerId == plan[j].consumerId
    ensures plan[i].tier <= plan[j].tier
  {
    assert InOrder(preferences, plan[i], plan[j]);
  }

  /** Deliveries are inserted in plan order, so no later tier of the chain is in the table yet. */
  lemma InsertsInTierOrder(db: Db, outbox: OutboxTable, matched: AlertPlans, a: AlertId)
    requires PlanInv(db, outbox, matched) && a in matched && |matched[a].ids| < |matched[a].plan|
    ensures matched[a].plan[|matched[a].ids|].alertId == a
    ensures matched[a].plan[|matched[a].ids|].maxAttempts > 0
    ensures LastOfItsChain(db, matched[a].plan[|matched[a].ids|])
  {
    hide PlanInv, WellFormedPlan;
    var m := matched[a];
    var p := m.plan[|m.ids|];
    NextInPlan(db, outbox, matched, a);
    forall e | e in db.rows && SameChain(db.rows[e].plan, p) ensures db.rows[e].plan.tier <= p.tier {
      NextFacts(db, outbox, matched, a, e);
      var i :| 0 <= i < |m.ids| && db.rows[e].plan == m.plan[i];
      TiersRise(a, m.preferences, m.plan, i, |m.ids|);
    }
  }

  lemma PlansSurviveInsert(db: Db, outbox: OutboxTable, matched: AlertPlans, a: AlertId, id: DeliveryId)
    requires PlanInv(db, outbox, matched) && a in matched && |matched[a].ids| < |matched[a].plan|
    requires id !in db.rows && outbox[a] == Claimed
    ensures var m := matched[a];
            PlanInv(Inserted(db, id, m.plan[|m.ids|]), outbox, matched[a := m.(ids := m.ids + [id])])
  {
    hide WellFormedPlan, LastOfItsChain;
    var m := matched[a];
    var db', m' := Inserted(db, id, m.plan[|m.ids|]), m.(ids := m.ids + [id]);
    InsertsInTierOrder(db, outbox, matched, a);
    forall b | b in matched ensures AlertPlanOk(db', b, if b == a then m' else matched[b]) {
      assert AlertPlanOk(db, b, matched[b]);
    }
    forall e | e in db'.rows && e != id
      ensures db'.rows[e].plan.alertId in matched
      ensures e in matched[a := m'][db'.rows[e].plan.alertId].ids
    {
      assert e in matched[db.rows[e].plan.alertId].ids;
    }
  }

  lemma ThreadsSurviveInsert(db: Db, replay: set<ReplayKey>, threads: Threads, id: DeliveryId, plan: DeliveryPlan)
    requires Consistent(db) && Gated(db)
    requires id !in db.rows && plan.maxAttempts > 0 && LastOfItsChain(db, plan)
    requires WorkerInv(db, threads) && HandlerInv(db, replay, threads)
    ensures WorkerInv(Inserted(db, id, plan), threads) && HandlerInv(Inserted(db, id, plan), replay, threads)
  {
    hide Consistent, Gated, LastOfItsChain, GateOpen;
    InsertKeeps(db, id, plan);
    var db' := Inserted(db, id, plan);
    forall t | t in threads ensures WorkerOk(db', threads[t]) && HandlerOk(db', replay, threads[t]) {
      assert WorkerOk(db, threads[t]) && HandlerOk(db, replay, threads[t]);
    }
  }

  lemma MatcherInserts(outbox: OutboxTable, matched: AlertPlans, thread: Thread, id: DeliveryId)
    requires thread.Matcher? && MatcherOk(outbox, matched, thread)
    requires thread.phase.Inserting?
    ensures var a := thread.batch[thread.next];
            var m := matched[a];
            MatcherOk(outbox, matched[a := m.(ids := m.ids + [id])], thread.(phase := Inserting(thread.phase.done + 1)))
  {
  }

  lemma InsertNextKeeps(s: State, t: ThreadId, id: DeliveryId)
    requires Inv(s) && Enabled(s, InsertNext(t, id))
    ensures Inv(Perform(s, InsertNext(t, id)))
    ensures !KeyTaken(s.db, s.matched[Current(s, t)].plan[s.threads[t].phase.done])
  {
    hide Consistent, Gated, PlanInv, MatcherOk, MatcherInv, WorkerInv, HandlerInv, KeyTaken, LastOfItsChain;
    var a, done := Current(s, t), s.threads[t].phase.done;
    var m := s.matched[a];
    var thread, m' := s.threads[t].(phase := Inserting(done + 1)), m.(ids := m.ids + [id]);
    MatcherIsOk(s.outbox, s.matched, s.threads, t);
    CurrentFacts(s.outbox, s.matched, s.threads, t);
    KeyIsFree(s.db, s.outbox, s.matched, a);
    InsertsInTierOrder(s.db, s.outbox, s.matched, a);
    InsertKeeps(s.db, id, m.plan[done]);
    PlansSurviveInsert(s.db, s.outbox, s.matched, a, id);
    ThreadsSurviveInsert(s.db, s.replay, s.threads, id, m.plan[done]);
    MatcherInserts(s.outbox, s.matched, s.threads[t], id);
    ReplaceMatcher(s.outbox, s.matched, s.outbox, s.matched[a := m'], s.threads, t, thread);
    NewThreadKeepsOthers(Inserted(s.db, id, m.plan[done]), s.replay, s.threads, t, thread);
  }

  lemma PlansSurvivePublish(db: Db, outbox: OutboxTable, matched: AlertPlans, a: AlertId)
    requires PlanInv(db, outbox, matched) && a in matched && |matched[a].ids| >= |matched[a].plan|
    ensures PlanInv(db, outbox[a := Published], matched)
  {
    assert AlertPlanOk(db, a, matched[a]);
    hide WellFormedPlan;
  }

  lemma MatcherPublishes(outbox: OutboxTable, matched: AlertPlans, thread: Thread)
    requires thread.Matcher? && MatcherOk(outbox, matched, thread)
    requires thread.next < |thread.batch|
    ensures MatcherOk(outbox[thread.batch[thread.next] := Published], matched,
                      thread.(next := thread.next + 1, phase := Idle))
  {
  }

  lemma PublishKeeps(s: State, t: ThreadId)
    requires Inv(s) && Enabled(s, Publish(t))
    ensures Inv(Perform(s, Publish(t)))
  {
    hide Consistent, Gated, PlanInv, MatcherOk, MatcherInv, WorkerInv, HandlerInv;
    var a, thread := Current(s, t), s.threads[t].(next := s.threads[t].next + 1, phase := Idle);
    MatcherIsOk(s.outbox, s.matched, s.threads, t);
    CurrentFacts(s.outbox, s.matched, s.threads, t);
    PlansSurvivePublish(s.db, s.outbox, s.matched, a);
    MatcherPublishes(s.outbox, s.matched, s.threads[t]);
    ReplaceMatcher(s.outbox, s.matched, s.outbox[a := Published], s.matched, s.threads, t, thread);
    NewThreadKeepsOthers(s.db, s.replay, s.threads, t, thread);
  }
}
