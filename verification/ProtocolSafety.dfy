/** What holds in every state that any interleaving of the engine can reach. */
module ProtocolSafety {
  import opened Prelude
  import opened Identifiers
  import opened Deliveries
  import opened DeliveryLog
  import opened Database
  import opened Planning
  import opened Webhook
  import opened Protocol
  import ProtocolDispatch
  import ProtocolMatching

  /** The state a run of the engine leads to, or `None` for a sequence that is not a run. */
  ghost function Execute(actions: seq<Action>): Option<State> {
    if |actions| == 0 then Some(INIT)
    else
      match Execute(actions[..|actions| - 1])
      case None => None
      case Some(s) =>
        var last := actions[|actions| - 1];
        if s.db.rows.Keys == s.db.log.Keys && Enabled(s, last) then Some(Perform(s, last)) else None
  }

  lemma StepKeeps(s: State, action: Action)
    requires Inv(s) && Enabled(s, action)
    ensures s.db.rows.Keys == s.db.log.Keys
    ensures Inv(Perform(s, action))
  {
    InvParts(s);
    hide Inv, Enabled, Perform;
    match action {
      case NewAlert(alert) => ProtocolMatching.NewAlertKeeps(s, alert);
      case ClaimEvents(t, batch) => ProtocolMatching.ClaimEventsKeeps(s, t, batch);
      case Match(t, preferences, plan) => ProtocolMatching.MatchKeeps(s, t, preferences, plan);
      case InsertNext(t, id) => ProtocolMatching.InsertNextKeeps(s, t, id);
      case Publish(t) => ProtocolMatching.PublishKeeps(s, t);
      case Select(t, id) => ProtocolDispatch.SelectKeeps(s, t, id);
      case Start(t) => ProtocolDispatch.StartKeeps(s, t);
      case Record(t, outcome) => ProtocolDispatch.RecordKeeps(s, t, outcome);
      case Arrive(t, event) => ProtocolDispatch.ArriveKeeps(s, t, event);
      case Locate(t, id) => ProtocolDispatch.LocateKeeps(s, t, id);
      case Miss(t) => MissKeeps(s, t);
      case Load(t) => ProtocolDispatch.LoadKeeps(s, t);
      case Apply(t) => ProtocolDispatch.ApplyKeeps(s, t);
      case Stop(t) => StopActionKeeps(s, t);
    }
  }

  lemma MissKeeps(s: State, t: ThreadId)
    requires Inv(s) && Enabled(s, Miss(t))
    ensures s.db.rows.Keys == s.db.log.Keys && Inv(Perform(s, Miss(t)))
  {
    InvParts(s);
    ProtocolDispatch.StopKeeps(s, t);
    hide Inv;
  }

  lemma StopActionKeeps(s: State, t: ThreadId)
    requires Inv(s) && Enabled(s, Stop(t))
    ensures s.db.rows.Keys == s.db.log.Keys && Inv(Perform(s, Stop(t)))
  {
    InvParts(s);
    ProtocolDispatch.StopKeeps(s, t);
    hide Inv;
  }

  lemma {:induction false} ReachableInv(actions: seq<Action>)
    requires Execute(actions).Some?
    ensures Inv(Execute(actions).value)
  {
    if |actions| > 0 {
      var front := actions[..|actions| - 1];
      ReachableInv(front);
      hide Inv, Enabled, Perform;
      StepKeeps(Execute(front).value, actions[|actions| - 1]);
    }
  }

  // ---- Fallback ----

  lemma ChainTiersDiffer(db: Db, outbox: OutboxTable, matched: AlertPlans, d: DeliveryId, e: DeliveryId)
    requires PlanInv(db, outbox, matched)
    requires d in db.rows && e in db.rows && d != e && SameChain(db.rows[d].plan, db.rows[e].plan)
    ensures var m := matched[db.rows[d].plan.alertId];
            var consumer := db.rows[d].plan.consumerId;
            && consumer in m.preferences
            && (m.preferences[consumer].strategy != All ==> db.rows[d].plan.tier != db.rows[e].plan.tier)
            && db.rows[d].plan.channel != db.rows[e].plan.channel
  {
    hide WellFormedPlan, InOrder;
    var a := db.rows[d].plan.alertId;
    var m := matched[a];
    assert AlertPlanOk(db, a, m);
    var i :| 0 <= i < |m.ids| && m.ids[i] == d;
    var j :| 0 <= j < |m.ids| && m.ids[j] == e;
    EntriesDiffer(a, m.preferences, m.plan, if i < j then i else j, if i < j then j else i);
  }

  lemma EntriesDiffer(a: AlertId, preferences: Preferences, plan: seq<DeliveryPlan>, i: nat, j: nat)
    requires WellFormedPlan(a, preferences, plan) && i < j < |plan| && plan[i].consumerId == plan[j].consumerId
    ensures plan[i].consumerId in preferences
    ensures preferences[plan[i].consumerId].strategy != All ==> plan[i].tier != plan[j].tier
    ensures plan[i].channel != plan[j].channel
  {
    assert InOrder(preferences, plan[i], plan[j]);
  }

  /** Under a sequential strategy at most one channel of an alert and consumer is ever in
      progress or successful, and whatever has left the queue found every lower tier failed. */
  lemma FallbackExclusion(actions: seq<Action>, d: DeliveryId, e: DeliveryId)
    requires Execute(actions).Some?
    requires var rows := Execute(actions).value.db.rows;
             d in rows && e in rows && d != e && SameChain(rows[d].plan, rows[e].plan)
    ensures var s := Execute(actions).value;
            var (p, q) := (s.db.rows[d], s.db.rows[e]);
            && p.plan.alertId in s.matched
            && p.plan.consumerId in s.matched[p.plan.alertId].preferences
            && (p.status != Queued && q.plan.tier < p.plan.tier ==> q.status == FailedPermanently)
            && (s.matched[p.plan.alertId].preferences[p.plan.consumerId].strategy != All ==>
                  p.plan.tier != q.plan.tier && !(Active(p.status) && Active(q.status)))
  {
    var s := Execute(actions).value;
    ReachableInv(actions);
    hide Execute, MatcherInv, WorkerInv, HandlerInv;
    ChainTiersDiffer(s.db, s.outbox, s.matched, d, e);
    assert s.db.rows[d].plan.alertId in s.matched;
    if s.db.rows[d].plan.tier != s.db.rows[e].plan.tier {
      AtMostOneActive(s.db, d, e);
    }
  }

  /** At the end of any run nothing is left to claim, even with every backoff elapsed, if and only if every chain has
      failed throughout or has settled on one delivery. */
  lemma RunIsQuiescentIffSettled(actions: seq<Action>)
    requires Execute(actions).Some?
    ensures var db := Execute(actions).value.db;
            Quiescent(db) <==> forall id :: id in db.rows ==> Settled(db, db.rows[id].plan)
  {
    hide Execute, Inv, Consistent, Gated, PlanInv, MatcherInv, WorkerInv, HandlerInv, Quiescent, Settled;
    ReachableInv(actions);
    InvParts(Execute(actions).value);
    QuiescentIffSettled(Execute(actions).value.db);
  }

  // ---- Log and state ----

  /** However workers and callbacks race, a delivery's log replays to its row, its events are
      versioned 1..version, no attempt is numbered twice, and it is reported delivered at most once. */
  lemma LogAgreement(actions: seq<Action>, id: DeliveryId, i: nat, j: nat)
    requires Execute(actions).Some? && id in Execute(actions).value.db.rows
    ensures var db := Execute(actions).value.db;
            && id in db.log
            && Agrees(db.rows[id], db.log[id])
            && Balanced(db.rows[id])
            && |db.log[id]| == db.rows[id].version <= 2 * db.rows[id].plan.maxAttempts + 2
            && (i < |db.log[id]| ==> db.log[id][i].version == i + 1)
            && (i < j < |db.log[id]| && db.log[id][i].attempt.Some? && db.log[id][j].attempt.Some? ==>
                  db.log[id][i].attempt.value.number < db.log[id][j].attempt.value.number)
            && (i < j < |db.log[id]| ==> db.log[id][i].event != DeliveryDelivered)
  {
    var db := Execute(actions).value.db;
    ReachableInv(actions);
    hide Execute;
    var row, log := db.rows[id], db.log[id];
    Accounting(row, log);
    if i < |log| {
      VersionsAreGapFree(row, log, i);
      if i < j < |log| {
        if log[i].attempt.Some? && log[j].attempt.Some? {
          AttemptNumbersIncrease(row, log, i, j);
        }
        if log[i].event == DeliveryDelivered {
          DeliveredIsLast(row, log, i);
        }
      }
    }
  }

  /** A worker that recorded an outcome never meets the rejection it treats as impossible, and its
      write is never a conflict, so ignoring the outcome of the write loses nothing. */
  lemma WorkerWritesAlwaysApply(actions: seq<Action>, t: ThreadId, outcome: SendOutcome)
    requires Execute(actions).Some? && Enabled(Execute(actions).value, Record(t, outcome))
    ensures var s := Execute(actions).value;
            var Dispatcher(id, row) := s.threads[t];
            && id in s.db.rows && s.db.rows[id] == row && row.status == Sending
            && Ended(row, outcome).Success?
            && Applies(s.db, id, Ended(row, outcome).value)
  {
    var s := Execute(actions).value;
    ReachableInv(actions);
    assert WorkerOk(s.db, s.threads[t]);
    ProtocolDispatch.RecordKeeps(s, t, outcome);
    hide Execute, Inv;
  }

  /** A claim selected earlier is still legitimate when it is finally made: the gate it saw open
      without locking the lower tiers cannot have closed. */
  lemma SelectedGateStaysOpen(actions: seq<Action>, t: ThreadId)
    requires Execute(actions).Some? && Enabled(Execute(actions).value, Start(t))
    ensures var s := Execute(actions).value;
            && GateOpen(s.db, s.threads[t].id)
            && Applies(s.db, s.threads[t].id, Started(s.db.rows[s.threads[t].id]).value)
  {
    var s := Execute(actions).value;
    ReachableInv(actions);
    assert WorkerOk(s.db, s.threads[t]);
    hide Execute, Inv;
  }

  // ---- Callbacks ----

  /** A failure report never changes a delivery, at any point of any run. */
  lemma FailureReportsChangeNothing(actions: seq<Action>, t: ThreadId)
    requires Execute(actions).Some? && Enabled(Execute(actions).value, Apply(t))
    requires Execute(actions).value.threads[t].event.status.ReportsFailed?
    ensures var s := Execute(actions).value;
            && s.db.rows.Keys == s.db.log.Keys
            && AppliedEvent(s.threads[t].row, s.threads[t].event.status).Failure?
            && Perform(s, Apply(t)).db == s.db
  {
    var s := Execute(actions).value;
    ReachableInv(actions);
    InvParts(s);
    hide Execute, Inv, Consistent, Gated, PlanInv, MatcherInv, WorkerInv, HandlerInv, AppliedEvent, WriteBack;
    ProtocolDispatch.ApplyEffect(s.db, s.replay, s.threads, t);
  }

  /** A delivery report that reaches a delivery leaves it delivered, whether this handler confirmed it,
      another did so first, or its copy was stale; and it touches nothing else. */
  lemma DeliveryReportsStick(actions: seq<Action>, t: ThreadId)
    requires Execute(actions).Some? && Enabled(Execute(actions).value, Apply(t))
    requires Execute(actions).value.threads[t].event.status.ReportsDelivered?
    ensures var s := Execute(actions).value;
            var id := s.threads[t].id;
            && s.db.rows.Keys == s.db.log.Keys
            && id in s.db.rows && s.db.rows[id].status in {Sent, Delivered}
            && var after := Perform(s, Apply(t)).db;
               && after.rows.Keys == s.db.rows.Keys
               && after.rows[id].status == Delivered
               && (s.db.rows[id].status == Delivered ==> after == s.db)
               && forall e :: e in s.db.rows && e != id ==> after.rows[e] == s.db.rows[e]
  {
    var s := Execute(actions).value;
    ReachableInv(actions);
    InvParts(s);
    hide Execute, Inv, Consistent, Gated, PlanInv, MatcherInv, WorkerInv, HandlerInv, AppliedEvent, WriteBack;
    ProtocolDispatch.ApplyEffect(s.db, s.replay, s.threads, t);
  }

  // ---- The outbox ----

  /** A published event has its whole plan in the table, each entry exactly once; every row of any
      alert belongs to the plan made for it; and nothing is ever planned twice. */
  lemma OutboxSafety(actions: seq<Action>, a: AlertId)
    requires Execute(actions).Some? && a in Execute(actions).value.outbox
    ensures var s := Execute(actions).value;
            && (s.outbox[a] == Published ==>
                  && a in s.matched
                  && forall i :: 0 <= i < |s.matched[a].plan| ==> RowPlannedAs(s.db, s.matched[a].plan[i]))
            && (forall d, e :: d in s.db.rows && e in s.db.rows && d != e ==>
                  IdempotencyKey(s.db.rows[d].plan) != IdempotencyKey(s.db.rows[e].plan))
            && (forall d :: d in s.db.rows && s.db.rows[d].plan.alertId == a ==>
                  a in s.matched && s.db.rows[d].plan in s.matched[a].plan)
            && (s.outbox[a] == Unclaimed ==> a !in s.matched)
  {
    var s := Execute(actions).value;
    ReachableInv(actions);
    hide Execute, Consistent, Gated, MatcherInv, WorkerInv, HandlerInv, WellFormedPlan;
    if a in s.matched {
      var m := s.matched[a];
      assert AlertPlanOk(s.db, a, m);
      forall i | 0 <= i < |m.ids| ensures RowPlannedAs(s.db, m.plan[i]) {
        assert m.ids[i] in s.db.rows && s.db.rows[m.ids[i]].plan == m.plan[i];
      }
    }
    forall d, e | d in s.db.rows && e in s.db.rows && d != e
      ensures IdempotencyKey(s.db.rows[d].plan) != IdempotencyKey(s.db.rows[e].plan)
    {
      KeyDeterminesEndpoint(s.db.rows[d].plan, s.db.rows[e].plan);
      if SameChain(s.db.rows[d].plan, s.db.rows[e].plan) {
        ChainTiersDiffer(s.db, s.outbox, s.matched, d, e);
      }
    }
  }

  ghost predicate RowPlannedAs(db: Db, p: DeliveryPlan) {
    exists id :: id in db.rows && db.rows[id].plan == p
  }

  /** Planning happens once per event, and inserting never finds its key taken. */
  lemma NothingIsPlannedTwice(actions: seq<Action>, action: Action)
    requires Execute(actions).Some? && Enabled(Execute(actions).value, action)
    ensures var s := Execute(actions).value;
            && (action.Match? ==> Current(s, action.t) !in s.matched)
            && (action.InsertNext? ==>
                  !KeyTaken(s.db, s.matched[Current(s, action.t)].plan[s.threads[action.t].phase.done]))
  {
    var s := Execute(actions).value;
    ReachableInv(actions);
    hide Execute, Inv;
    match action {
      case Match(t, preferences, plan) => ProtocolMatching.MatchKeeps(s, t, preferences, plan);
      case InsertNext(t, id) => ProtocolMatching.InsertNextKeeps(s, t, id);
      case _ =>
    }
  }

  // ---- What a batch looks like after any fault ----

  /** The first `n` events are published, the rest claimed, and of the rest only the first may be planned. */
  ghost predicate PrefixPublished(s: State, batch: seq<AlertId>, n: nat) {
    && n <= |batch|
    && (forall i :: 0 <= i < |batch| ==>
          batch[i] in s.outbox && s.outbox[batch[i]] == if i < n then Published else Claimed)
    && (forall i :: n < i < |batch| ==> batch[i] !in s.matched)
  }

  ghost predicate Owns(s: State, t: ThreadId, batch: seq<AlertId>) {
    t in s.threads && s.threads[t].Matcher? && s.threads[t].batch == batch
  }

  /** No matching worker has any event of the batch. */
  ghost predicate Abandoned(s: State, batch: seq<AlertId>) {
    forall t :: t in s.threads ==> ApartFrom(s.threads[t], Matcher(batch, 0, Idle))
  }

  lemma OwnedBatchIsPrefix(s: State, t: ThreadId, batch: seq<AlertId>)
    requires MatcherInv(s.outbox, s.matched, s.threads) && Owns(s, t, batch)
    ensures PrefixPublished(s, batch, s.threads[t].next)
  {
    assert MatcherOk(s.outbox, s.matched, s.threads[t]);
  }

  lemma StopAbandons(s: State, t: ThreadId, batch: seq<AlertId>)
    requires MatcherInv(s.outbox, s.matched, s.threads) && Owns(s, t, batch)
    ensures Abandoned(s.(threads := s.threads - {t}), batch)
  {
    hide MatcherOk;
    forall u | u in s.threads && u != t ensures ApartFrom(s.threads[u], Matcher(batch, 0, Idle)) {
      assert ApartFrom(s.threads[u], s.threads[t]);
    }
  }

  predicate WorksOn(s: State, action: Action, a: AlertId) {
    match action
    case Match(t, _, _) => MatcherAt(s, t) && Current(s, t) == a
    case InsertNext(t, _) => MatcherAt(s, t) && Current(s, t) == a
    case Publish(t) => MatcherAt(s, t) && Current(s, t) == a
    case ClaimEvents(_, batch) => a in batch
    case _ => false
  }

  /** The event and what was planned for it are as they were. */
  ghost predicate Untouched(s: State, after: State, a: AlertId) {
    && (a in s.outbox ==> a in after.outbox && after.outbox[a] == s.outbox[a])
    && (a in s.matched <==> a in after.matched)
    && (a in s.matched ==> after.matched[a] == s.matched[a])
  }

  lemma Footprint(s: State, action: Action, a: AlertId)
    requires s.db.rows.Keys == s.db.log.Keys && Enabled(s, action)
    requires a in s.outbox && !WorksOn(s, action, a)
    ensures Untouched(s, Perform(s, action), a)
  {
    hide GateOpen, KeyTaken, WellFormedPlan, ValidPreferences, CompareAndSet, Inserted, Finds, WriteBack, Started,
         Distinct, AllUnclaimed;
  }

  lemma BatchesComeFromClaims(s: State, action: Action, t: ThreadId)
    requires s.db.rows.Keys == s.db.log.Keys && Enabled(s, action)
    requires t in Perform(s, action).threads && Perform(s, action).threads[t].Matcher?
    ensures (action.ClaimEvents? && Perform(s, action).threads[t].batch == action.batch) ||
            (t in s.threads && s.threads[t].Matcher? && s.threads[t].batch == Perform(s, action).threads[t].batch)
  {
    hide GateOpen, KeyTaken, WellFormedPlan, ValidPreferences, CompareAndSet, Inserted, Finds, WriteBack, Started,
         Distinct, AllUnclaimed;
  }

  lemma NobodyWorksOn(s: State, action: Action, batch: seq<AlertId>, n: nat, a: AlertId)
    requires Enabled(s, action) && PrefixPublished(s, batch, n) && Abandoned(s, batch) && a in batch
    ensures a in s.outbox && !WorksOn(s, action, a)
  {
    hide GateOpen, KeyTaken, WellFormedPlan, ValidPreferences, Finds, Distinct;
    var i :| 0 <= i < |batch| && batch[i] == a;
    if (action.Match? || action.InsertNext? || action.Publish?) && MatcherAt(s, action.t) {
      assert ApartFrom(s.threads[action.t], Matcher(batch, 0, Idle));
      assert Current(s, action.t) in s.threads[action.t].batch;
    }
  }

  /** No action touches an abandoned batch: its events are never claimed again, planned further or published. */
  lemma AbandonedBatchIsFrozen(s: State, action: Action, batch: seq<AlertId>, n: nat)
    requires s.db.rows.Keys == s.db.log.Keys && Enabled(s, action)
    requires PrefixPublished(s, batch, n) && Abandoned(s, batch)
    ensures forall a :: a in batch ==> Untouched(s, Perform(s, action), a)
    ensures PrefixPublished(Perform(s, action), batch, n) && Abandoned(Perform(s, action), batch)
  {
    hide Enabled, Perform, ApartFrom, WorksOn;
    var after := Perform(s, action);
    forall a | a in batch ensures Untouched(s, after, a) && !WorksOn(s, action, a) {
      NobodyWorksOn(s, action, batch, n, a);
      Footprint(s, action, a);
    }
    forall i | 0 <= i < |batch| ensures Untouched(s, after, batch[i]) {
      assert batch[i] in batch;
    }
    forall t | t in after.threads ensures ApartFrom(after.threads[t], Matcher(batch, 0, Idle)) {
      StaysApart(s, action, batch, t);
    }
  }

  lemma StaysApart(s: State, action: Action, batch: seq<AlertId>, t: ThreadId)
    requires s.db.rows.Keys == s.db.log.Keys && Enabled(s, action)
    requires Abandoned(s, batch) && forall a :: a in batch ==> !WorksOn(s, action, a)
    requires t in Perform(s, action).threads
    ensures ApartFrom(Perform(s, action).threads[t], Matcher(batch, 0, Idle))
  {
    hide Enabled, Perform;
    if Perform(s, action).threads[t].Matcher? {
      BatchesComeFromClaims(s, action, t);
      if t in s.threads {
        assert ApartFrom(s.threads[t], Matcher(batch, 0, Idle));
      }
    }
  }

  /** Owned by its worker, or abandoned with a prefix of it published. */
  ghost predicate Tracked(s: State, batch: seq<AlertId>) {
    || (exists t :: Owns(s, t, batch))
    || (Abandoned(s, batch) && exists n: nat :: PrefixPublished(s, batch, n))
  }

  lemma OwnerKeepsOrAbandons(s: State, action: Action, t: ThreadId, batch: seq<AlertId>)
    requires Inv(s) && Enabled(s, action) && Owns(s, t, batch)
    requires s.db.rows.Keys == s.db.log.Keys
    ensures Owns(Perform(s, action), t, batch) || action == Stop(t)
  {
    hide Inv, GateOpen, KeyTaken, WellFormedPlan, ValidPreferences, CompareAndSet, Inserted, Finds, WriteBack, Started,
         Distinct, AllUnclaimed;
  }

  lemma TrackedStep(s: State, action: Action, batch: seq<AlertId>)
    requires Inv(s) && Enabled(s, action) && Tracked(s, batch)
    ensures s.db.rows.Keys == s.db.log.Keys && Tracked(Perform(s, action), batch)
  {
    hide Inv, Enabled, MatcherInv, PrefixPublished, Abandoned, Perform;
    InvParts(s);
    if t :| Owns(s, t, batch) {
      OwnerKeepsOrAbandons(s, action, t, batch);
      if action == Stop(t) {
        OwnedBatchIsPrefix(s, t, batch);
        StopAbandons(s, t, batch);
        StopForgets(s, t);
        PrefixIgnoresThreads(s, s.threads - {t}, batch, s.threads[t].next);
      }
    } else {
      var n: nat :| PrefixPublished(s, batch, n);
      AbandonedBatchIsFrozen(s, action, batch, n);
    }
  }

  lemma StopForgets(s: State, t: ThreadId)
    requires s.db.rows.Keys == s.db.log.Keys && Enabled(s, Stop(t))
    ensures Perform(s, Stop(t)) == s.(threads := s.threads - {t})
  {
  }

  lemma PrefixIgnoresThreads(s: State, threads: Threads, batch: seq<AlertId>, n: nat)
    requires PrefixPublished(s, batch, n)
    ensures PrefixPublished(s.(threads := threads), batch, n)
  {
  }

  lemma ClaimedBatchIsTracked(s: State, t: ThreadId, batch: seq<AlertId>)
    requires s.db.rows.Keys == s.db.log.Keys && Enabled(s, ClaimEvents(t, batch))
    ensures Tracked(Perform(s, ClaimEvents(t, batch)), batch)
  {
    assert Owns(Perform(s, ClaimEvents(t, batch)), t, batch);
  }

  lemma {:induction false} ClaimedBatchesStayTracked(actions: seq<Action>, i: nat)
    requires Execute(actions).Some? && i < |actions| && actions[i].ClaimEvents?
    ensures Tracked(Execute(actions).value, actions[i].batch)
  {
    var front, last := actions[..|actions| - 1], actions[|actions| - 1];
    var s := Execute(front).value;
    ReachableInv(front);
    hide Inv, Enabled, Perform, Tracked;
    if i == |front| {
      ClaimedBatchIsTracked(s, last.t, last.batch);
    } else {
      ClaimedBatchesStayTracked(front, i);
      TrackedStep(s, last, actions[i].batch);
    }
  }

  /** Whatever fails and whenever, every batch ever claimed is a published prefix followed by claimed
      events: at most the first of those has been planned, and the published ones are planned in full. */
  lemma CrashSafeBatches(actions: seq<Action>, i: nat)
    requires Execute(actions).Some? && i < |actions| && actions[i].ClaimEvents?
    ensures var s, batch := Execute(actions).value, actions[i].batch;
            exists n: nat ::
              && PrefixPublished(s, batch, n)
              && forall k :: 0 <= k < n ==>
                   batch[k] in s.matched && |s.matched[batch[k]].ids| == |s.matched[batch[k]].plan|
  {
    var s, batch := Execute(actions).value, actions[i].batch;
    ReachableInv(actions);
    ClaimedBatchesStayTracked(actions, i);
    InvParts(s);
    hide Execute, Inv, Consistent, Gated, MatcherInv, Abandoned, AlertPlanOk;
    if t :| Owns(s, t, batch) {
      OwnedBatchIsPrefix(s, t, batch);
    }
    var n: nat :| PrefixPublished(s, batch, n);
  }
}
