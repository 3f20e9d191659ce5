/** When a claimed event can still be published, and what becomes of it when it cannot. */
module ProtocolOutbox {
  import opened Prelude
  import opened Identifiers
  import opened Deliveries
  import opened Database
  import opened Planning
  import opened Webhook
  import opened Protocol
  import ProtocolMatching
  import opened ProtocolSafety
  import opened ProtocolRows

  predicate Batches(thread: Thread, a: AlertId) {
    thread.Matcher? && a in thread.batch
  }

  /** Some matching worker has the event in its batch. */
  ghost predicate IsOwned(s: State, a: AlertId) {
    exists t :: t in s.threads && Batches(s.threads[t], a)
  }

  predicate IsClaimed(s: State, a: AlertId) {
    a in s.outbox && s.outbox[a] == Claimed
  }

  predicate IsPublished(s: State, a: AlertId) {
    a in s.outbox && s.outbox[a] == Published
  }

  /** Claimed by a worker that is gone. */
  ghost predicate IsAbandoned(s: State, a: AlertId) {
    IsClaimed(s, a) && !IsOwned(s, a)
  }

  // ---- Abandoned for good ----

  lemma WorkersOwn(s: State, action: Action, a: AlertId)
    requires Enabled(s, action) && IsClaimed(s, a) && WorksOn(s, action, a)
    ensures IsOwned(s, a)
  {
    hide GateOpen, KeyTaken, WellFormedPlan, ValidPreferences, Finds, Distinct;
    if action.Match? || action.InsertNext? || action.Publish? {
      assert Current(s, action.t) in s.threads[action.t].batch;
      assert Batches(s.threads[action.t], a);
    }
  }

  lemma OwnersClaim(s: State, action: Action, a: AlertId)
    requires s.db.rows.Keys == s.db.log.Keys && Enabled(s, action) && IsOwned(Perform(s, action), a)
    ensures IsOwned(s, a) || (action.ClaimEvents? && a in action.batch)
  {
    hide Enabled, Perform;
    var t :| t in Perform(s, action).threads && Batches(Perform(s, action).threads[t], a);
    BatchesComeFromClaims(s, action, t);
    if t in s.threads && s.threads[t].Matcher? && s.threads[t].batch == Perform(s, action).threads[t].batch {
      assert Batches(s.threads[t], a);
    }
  }

  lemma AbandonedStep(s: State, action: Action, a: AlertId)
    requires s.db.rows.Keys == s.db.log.Keys && Enabled(s, action) && IsAbandoned(s, a)
    ensures IsAbandoned(Perform(s, action), a) && Untouched(s, Perform(s, action), a)
  {
    hide Enabled, Perform, IsOwned;
    if WorksOn(s, action, a) {
      WorkersOwn(s, action, a);
    }
    Footprint(s, action, a);
    if IsOwned(Perform(s, action), a) {
      OwnersClaim(s, action, a);
    }
  }

  /** However the run goes on, a claimed event whose worker is gone stays as it is: claimed, unpublished, its plan and
      the rows made for it unchanged. */
  lemma {:induction false} AbandonedForGood(actions: seq<Action>, more: seq<Action>, a: AlertId)
    requires Execute(actions).Some? && IsAbandoned(Execute(actions).value, a) && Execute(actions + more).Some?
    ensures IsAbandoned(Execute(actions + more).value, a)
    ensures Untouched(Execute(actions).value, Execute(actions + more).value, a)
    decreases |more|
  {
    hide Execute, Enabled, Perform, IsOwned;
    if |more| == 0 {
      assert actions + more == actions;
    } else {
      var front := more[..|more| - 1];
      ExecuteSnoc(actions, more);
      AbandonedForGood(actions, front, a);
      AbandonedStep(Execute(actions + front).value, more[|more| - 1], a);
    }
  }

  /** The deliveries on record for an alert. */
  ghost function RowsOf(s: State, a: AlertId): set<DeliveryId> {
    set id | id in s.db.rows && s.db.rows[id].plan.alertId == a
  }

  ghost function PlannedIds(s: State, a: AlertId): seq<DeliveryId> {
    if a in s.matched then s.matched[a].ids else []
  }

  lemma PlannedIsRow(db: Db, a: AlertId, m: AlertPlan, id: DeliveryId)
    requires AlertPlanOk(db, a, m) && id in m.ids
    ensures id in db.rows && db.rows[id].plan.alertId == a
  {
    hide InOrder;
    var i :| 0 <= i < |m.ids| && m.ids[i] == id;
  }

  lemma RowIsPlanned(db: Db, outbox: OutboxTable, matched: AlertPlans, id: DeliveryId)
    requires PlanInv(db, outbox, matched) && id in db.rows
    ensures db.rows[id].plan.alertId in matched && id in matched[db.rows[id].plan.alertId].ids
    ensures AlertPlanOk(db, db.rows[id].plan.alertId, matched[db.rows[id].plan.alertId])
  {
    hide AlertPlanOk;
  }

  lemma PlansAreOk(db: Db, outbox: OutboxTable, matched: AlertPlans, a: AlertId)
    requires PlanInv(db, outbox, matched) && a in matched
    ensures AlertPlanOk(db, a, matched[a])
  {
    hide AlertPlanOk;
  }

  lemma RowsAreThePlanned(s: State, a: AlertId)
    requires Inv(s)
    ensures forall id :: id in RowsOf(s, a) <==> id in PlannedIds(s, a)
  {
    hide Inv, Consistent, Gated, PlanInv, AlertPlanOk, MatcherInv, WorkerInv, HandlerInv;
    InvParts(s);
    forall id ensures id in RowsOf(s, a) <==> id in PlannedIds(s, a) {
      if id in RowsOf(s, a) {
        RowIsPlanned(s.db, s.outbox, s.matched, id);
      }
      if id in PlannedIds(s, a) {
        PlansAreOk(s.db, s.outbox, s.matched, a);
        PlannedIsRow(s.db, a, s.matched[a], id);
      }
    }
  }

  /** In particular no delivery is ever added for it: what its plan lacks it lacks for good. */
  lemma AbandonedGainsNothing(actions: seq<Action>, more: seq<Action>, a: AlertId)
    requires Execute(actions).Some? && IsAbandoned(Execute(actions).value, a) && Execute(actions + more).Some?
    ensures RowsOf(Execute(actions + more).value, a) == RowsOf(Execute(actions).value, a)
  {
    hide Execute, Inv, IsOwned, RowsOf;
    AbandonedForGood(actions, more, a);
    ReachableInv(actions);
    ReachableInv(actions + more);
    RowsAreThePlanned(Execute(actions).value, a);
    RowsAreThePlanned(Execute(actions + more).value, a);
  }

  // ---- An owned event can be published ----

  /** The worker has the event at index `i` of its batch and has not published it yet. */
  ghost predicate HasAhead(s: State, t: ThreadId, a: AlertId, i: nat) {
    && t in s.threads && s.threads[t].Matcher?
    && s.threads[t].next <= i < |s.threads[t].batch|
    && s.threads[t].batch[i] == a
  }

  lemma OwnerHasItAhead(s: State, t: ThreadId, a: AlertId) returns (i: nat)
    requires Inv(s) && IsClaimed(s, a) && t in s.threads && Batches(s.threads[t], a)
    ensures HasAhead(s, t, a, i)
  {
    hide Inv, Consistent, Gated, PlanInv, MatcherInv, WorkerInv, HandlerInv;
    InvParts(s);
    ProtocolMatching.MatcherIsOk(s.outbox, s.matched, s.threads, t);
    i :| 0 <= i < |s.threads[t].batch| && s.threads[t].batch[i] == a;
  }

  /** How much the worker still has to do on its current event. */
  ghost function LeftToInsert(s: State, t: ThreadId): nat
    requires t in s.threads && s.threads[t].Matcher?
  {
    if MatcherInserting(s, t) && s.threads[t].phase.done < |s.matched[Current(s, t)].plan|
    then |s.matched[Current(s, t)].plan| - s.threads[t].phase.done else 0
  }

  lemma FreshId(rows: map<DeliveryId, DeliveryRow>) returns (id: DeliveryId)
    ensures id !in rows
  {
    var numbers := set known | known in rows :: known.number;
    var n := AboveAll(numbers);
    id := DeliveryId(n);
    assert id in rows ==> id.number in numbers;
  }

  lemma {:induction false} AboveAll(numbers: set<nat>) returns (n: nat)
    ensures forall k :: k in numbers ==> k < n
  {
    if numbers == {} {
      n := 0;
    } else {
      var k :| k in numbers;
      var rest := AboveAll(numbers - {k});
      n := if rest > k then rest else k + 1;
      forall j | j in numbers ensures j < n {
        assert j == k || j in numbers - {k};
      }
    }
  }

  lemma PlanNothing(s: State, t: ThreadId, a: AlertId, i: nat)
    requires s.db.rows.Keys == s.db.log.Keys && HasAhead(s, t, a, i) && s.threads[t].phase == Idle
    ensures Enabled(s, Match(t, map[], []))
    ensures var after := Perform(s, Match(t, map[], []));
            && HasAhead(after, t, a, i)
            && after.threads[t].next == s.threads[t].next
            && MatcherInserting(after, t) && LeftToInsert(after, t) == 0
  {
  }

  lemma InsertOne(s: State, t: ThreadId, a: AlertId, i: nat, id: DeliveryId)
    requires s.db.rows.Keys == s.db.log.Keys && HasAhead(s, t, a, i) && MatcherInserting(s, t) && LeftToInsert(s, t) > 0
    requires id !in s.db.rows
    ensures Enabled(s, InsertNext(t, id))
    ensures var after := Perform(s, InsertNext(t, id));
            && HasAhead(after, t, a, i)
            && after.threads[t].next == s.threads[t].next
            && MatcherInserting(after, t) && LeftToInsert(after, t) == LeftToInsert(s, t) - 1
  {
    hide KeyTaken;
  }

  lemma PublishOne(s: State, t: ThreadId, a: AlertId, i: nat)
    requires s.db.rows.Keys == s.db.log.Keys && HasAhead(s, t, a, i)
    requires MatcherInserting(s, t) && LeftToInsert(s, t) == 0
    ensures Enabled(s, Publish(t))
    ensures var after := Perform(s, Publish(t));
            if s.threads[t].next == i then IsPublished(after, a)
            else HasAhead(after, t, a, i) && after.threads[t].next == s.threads[t].next + 1
  {
  }

  lemma InsertingIsPlanned(s: State, t: ThreadId, a: AlertId, i: nat)
    requires Inv(s) && HasAhead(s, t, a, i) && s.threads[t].phase.Inserting?
    ensures MatcherInserting(s, t)
  {
    hide Inv, Consistent, Gated, PlanInv, MatcherInv, WorkerInv, HandlerInv;
    InvParts(s);
    ProtocolMatching.CurrentFacts(s.outbox, s.matched, s.threads, t);
  }

  /** The worker that has a claimed event in its batch can go on until it has published it. */
  lemma {:induction false} OwnerCanPublish(actions: seq<Action>, t: ThreadId, a: AlertId, i: nat)
    returns (more: seq<Action>)
    requires Execute(actions).Some? && HasAhead(Execute(actions).value, t, a, i)
    ensures Execute(actions + more).Some? && IsPublished(Execute(actions + more).value, a)
    decreases
      i - Execute(actions).value.threads[t].next,
      if Execute(actions).value.threads[t].phase == Idle then 1 else 0,
      LeftToInsert(Execute(actions).value, t)
  {
    hide Execute, Inv, Enabled, Perform, MatcherInserting, LeftToInsert;
    var s := Execute(actions).value;
    ReachableInv(actions);
    InvKeys(s);
    var action;
    if s.threads[t].phase == Idle {
      PlanNothing(s, t, a, i);
      action := Match(t, map[], []);
    } else {
      InsertingIsPlanned(s, t, a, i);
      if LeftToInsert(s, t) > 0 {
        var id := FreshId(s.db.rows);
        InsertOne(s, t, a, i, id);
        action := InsertNext(t, id);
      } else {
        PublishOne(s, t, a, i);
        action := Publish(t);
      }
    }
    Then(actions, action);
    if action.Publish? && s.threads[t].next == i {
      more := [action];
    } else {
      InsertingIsNotIdle(Perform(s, action), t);
      var rest := OwnerCanPublish(actions + [action], t, a, i);
      more := [action] + rest;
      assert actions + more == actions + [action] + rest;
    }
  }

  lemma InsertingIsNotIdle(s: State, t: ThreadId)
    ensures MatcherInserting(s, t) ==> s.threads[t].phase != Idle
  {
  }

  lemma InvKeys(s: State)
    requires Inv(s)
    ensures s.db.rows.Keys == s.db.log.Keys
  {
    hide Inv, Gated, PlanInv, MatcherInv, WorkerInv, HandlerInv;
    InvParts(s);
  }

  /** Some continuation of the run publishes the event. */
  ghost predicate PublishedBy(actions: seq<Action>, more: seq<Action>, a: AlertId) {
    Execute(actions + more).Some? && IsPublished(Execute(actions + more).value, a)
  }

  /** A claimed event can still be published if and only if some matching worker has it in its batch. */
  lemma ClaimedIsPublishableIffOwned(actions: seq<Action>, a: AlertId)
    requires Execute(actions).Some? && IsClaimed(Execute(actions).value, a)
    ensures IsOwned(Execute(actions).value, a) <==> exists more :: PublishedBy(actions, more, a)
  {
    hide Execute, Inv, HasAhead;
    var s := Execute(actions).value;
    if IsOwned(s, a) {
      var t :| t in s.threads && Batches(s.threads[t], a);
      ReachableInv(actions);
      var i := OwnerHasItAhead(s, t, a);
      var more := OwnerCanPublish(actions, t, a, i);
      assert PublishedBy(actions, more, a);
    } else if more :| PublishedBy(actions, more, a) {
      AbandonedForGood(actions, more, a);
    }
  }
}
