/** How the row of one delivery can move, and when it can move no more. */
module ProtocolRows {
  import opened Prelude
  import opened Identifiers
  import opened Deliveries
  import opened DeliveryLog
  import opened Database
  import opened Planning
  import opened Webhook
  import opened Protocol
  import ProtocolDispatch
  import opened ProtocolSafety

  predicate Dispatches(thread: Thread, id: DeliveryId) {
    thread.Dispatcher? && thread.id == id
  }

  /** Some worker is sending the delivery. */
  ghost predicate IsHeld(s: State, id: DeliveryId) {
    exists t :: t in s.threads && Dispatches(s.threads[t], id)
  }

  predicate WritesTables(action: Action) {
    action.InsertNext? || action.Start? || action.Record? || action.Apply?
  }

  lemma OthersLeaveTables(s: State, action: Action)
    requires s.db.rows.Keys == s.db.log.Keys && Enabled(s, action) && !WritesTables(action)
    ensures Perform(s, action).db == s.db
  {
    hide GateOpen, KeyTaken, WellFormedPlan, ValidPreferences, Finds, Distinct, AllUnclaimed;
  }

  lemma InsertMovesNothing(s: State, t: ThreadId, added: DeliveryId, id: DeliveryId)
    requires s.db.rows.Keys == s.db.log.Keys && Enabled(s, InsertNext(t, added)) && id in s.db.rows
    ensures var after := Perform(s, InsertNext(t, added)).db;
            id in after.rows && after.rows[id] == s.db.rows[id]
  {
    hide GateOpen, KeyTaken, WellFormedPlan, Finds;
  }

  lemma WorkerHolds(db: Db, threads: Threads, t: ThreadId)
    requires WorkerInv(db, threads) && t in threads && threads[t].Dispatcher?
    ensures threads[t].id in db.rows && db.rows[threads[t].id] == threads[t].row && threads[t].row.status == Sending
  {
    assert WorkerOk(db, threads[t]);
  }

  /** A row moves only when its claim is started, when the worker that holds it records an outcome, or when a
      callback confirms it. */
  ghost predicate MovesLawfully(s: State, action: Action, id: DeliveryId, after: Db)
    requires id in s.db.rows
  {
    var row := s.db.rows[id];
    && id in after.rows
    && (|| after.rows[id] == row
        || (action.Start? && Waiting(row.status))
        || (action.Record? && row.status == Sending && action.t in s.threads && Dispatches(s.threads[action.t], id))
        || (action.Apply? && row.status == Sent && after.rows[id].status == Delivered))
  }

  lemma StartIsLawful(s: State, t: ThreadId, id: DeliveryId)
    requires Inv(s) && Enabled(s, Start(t)) && id in s.db.rows
    ensures s.db.rows.Keys == s.db.log.Keys && MovesLawfully(s, Start(t), id, Perform(s, Start(t)).db)
  {
    hide Inv, Consistent, Gated, GateOpen, Sound, PlanInv, MatcherInv, WorkerInv, HandlerInv, CompareAndSet, Started;
    InvParts(s);
    ProtocolDispatch.StartIsSound(s.db, s.threads, t);
    ProtocolDispatch.SoundWrite(s.db, s.threads[t].id, Started(s.db.rows[s.threads[t].id]).value);
  }

  /** The row is the one the transition leads to. */
  predicate HasRow(db: Db, id: DeliveryId, transition: Transition) {
    id in db.rows && transition.Success? && db.rows[id] == transition.value.row
  }

  lemma RecordMoves(s: State, t: ThreadId, outcome: SendOutcome, id: DeliveryId)
    requires Inv(s) && Enabled(s, Record(t, outcome)) && id in s.db.rows
    ensures s.db.rows.Keys == s.db.log.Keys && t in s.threads && s.threads[t].Dispatcher?
    ensures HasRow(Perform(s, Record(t, outcome)).db, s.threads[t].id, Ended(s.threads[t].row, outcome))
    ensures MovesLawfully(s, Record(t, outcome), id, Perform(s, Record(t, outcome)).db)
  {
    hide Inv, Consistent, Gated, GateOpen, Sound, PlanInv, MatcherInv, WorkerInv, HandlerInv, CompareAndSet, Ended;
    InvParts(s);
    ProtocolDispatch.RecordIsSound(s.db, s.threads, t, outcome);
    WorkerHolds(s.db, s.threads, t);
    ProtocolDispatch.SoundWrite(s.db, s.threads[t].id, Ended(s.threads[t].row, outcome).value);
  }

  lemma ApplyIsLawful(s: State, t: ThreadId, id: DeliveryId)
    requires Inv(s) && Enabled(s, Apply(t)) && id in s.db.rows
    ensures s.db.rows.Keys == s.db.log.Keys && MovesLawfully(s, Apply(t), id, Perform(s, Apply(t)).db)
  {
    hide Inv, Consistent, Gated, PlanInv, MatcherInv, WorkerInv, HandlerInv, AppliedEvent, WriteBack;
    InvParts(s);
    ProtocolDispatch.ApplyEffect(s.db, s.replay, s.threads, t);
  }

  lemma UnmovedIsLawful(s: State, action: Action, id: DeliveryId, after: Db)
    requires id in s.db.rows && id in after.rows && after.rows[id] == s.db.rows[id]
    ensures MovesLawfully(s, action, id, after)
  {
  }

  lemma RowMoves(s: State, action: Action, id: DeliveryId)
    requires Inv(s) && Enabled(s, action) && id in s.db.rows
    ensures s.db.rows.Keys == s.db.log.Keys && MovesLawfully(s, action, id, Perform(s, action).db)
  {
    hide Inv, Enabled, Perform, MovesLawfully, Consistent, Gated, PlanInv, MatcherInv, WorkerInv, HandlerInv;
    InvParts(s);
    if action.Start? {
      StartIsLawful(s, action.t, id);
    } else if action.Record? {
      RecordMoves(s, action.t, action.outcome, id);
    } else if action.Apply? {
      ApplyIsLawful(s, action.t, id);
    } else {
      if action.InsertNext? {
        InsertMovesNothing(s, action.t, action.id, id);
      } else {
        OthersLeaveTables(s, action);
      }
      UnmovedIsLawful(s, action, id, Perform(s, action).db);
    }
  }

  /** Workers come from started claims only. */
  lemma DispatchersComeFromStarts(s: State, action: Action, id: DeliveryId)
    requires s.db.rows.Keys == s.db.log.Keys && Enabled(s, action) && IsHeld(Perform(s, action), id)
    ensures IsHeld(s, id) ||
            (action.Start? && s.threads[action.t].id == id && id in s.db.rows && Waiting(s.db.rows[id].status))
  {
    hide GateOpen, KeyTaken, WellFormedPlan, ValidPreferences, CompareAndSet, Inserted, Finds, WriteBack, Started,
      Distinct, AllUnclaimed, IsHeld;
    HeldMeans(Perform(s, action), id);
    var t :| t in Perform(s, action).threads && Dispatches(Perform(s, action).threads[t], id);
    if t in s.threads && Dispatches(s.threads[t], id) {
      HoldingMeans(s, t, id);
    }
  }

  lemma HeldMeans(s: State, id: DeliveryId)
    requires IsHeld(s, id)
    ensures exists t :: t in s.threads && Dispatches(s.threads[t], id)
  {
  }

  lemma HoldingMeans(s: State, t: ThreadId, id: DeliveryId)
    requires t in s.threads && Dispatches(s.threads[t], id)
    ensures IsHeld(s, id)
  {
  }

  // ---- Stuck deliveries ----

  /** A delivery that is being sent by nobody. */
  ghost predicate IsStuck(s: State, id: DeliveryId) {
    id in s.db.rows && s.db.rows[id].status == Sending && !IsHeld(s, id)
  }

  lemma StuckStepStays(s: State, action: Action, id: DeliveryId)
    requires Inv(s) && Enabled(s, action) && IsStuck(s, id)
    ensures s.db.rows.Keys == s.db.log.Keys
    ensures IsStuck(Perform(s, action), id) && Perform(s, action).db.rows[id] == s.db.rows[id]
  {
    hide Inv, Enabled, Perform, IsHeld;
    RowMoves(s, action, id);
    if action.Record? && action.t in s.threads && Dispatches(s.threads[action.t], id) {
      HoldingMeans(s, action.t, id);
    }
    if IsHeld(Perform(s, action), id) {
      DispatchersComeFromStarts(s, action, id);
    }
  }

  lemma ExecuteSnoc(actions: seq<Action>, more: seq<Action>)
    requires Execute(actions + more).Some? && |more| > 0
    ensures var front := actions + more[..|more| - 1];
            && Execute(front).Some?
            && Execute(front).value.db.rows.Keys == Execute(front).value.db.log.Keys
            && Enabled(Execute(front).value, more[|more| - 1])
            && Execute(actions + more).value == Perform(Execute(front).value, more[|more| - 1])
  {
    hide Enabled, Perform;
    assert (actions + more)[..|actions + more| - 1] == actions + more[..|more| - 1];
  }

  /** However the run goes on, a delivery whose worker is gone stays exactly as it is. */
  lemma {:induction false} StuckForGood(actions: seq<Action>, more: seq<Action>, id: DeliveryId)
    requires Execute(actions).Some? && IsStuck(Execute(actions).value, id) && Execute(actions + more).Some?
    ensures IsStuck(Execute(actions + more).value, id)
    ensures Execute(actions + more).value.db.rows[id] == Execute(actions).value.db.rows[id]
    decreases |more|
  {
    hide Execute, Inv, Enabled, Perform, IsHeld;
    if |more| == 0 {
      assert actions + more == actions;
    } else {
      var front := more[..|more| - 1];
      ExecuteSnoc(actions, more);
      StuckForGood(actions, front, id);
      ReachableInv(actions + front);
      StuckStepStays(Execute(actions + front).value, more[|more| - 1], id);
    }
  }

  lemma Then(actions: seq<Action>, action: Action)
    requires Execute(actions).Some? && Enabled(Execute(actions).value, action)
    ensures Execute(actions).value.db.rows.Keys == Execute(actions).value.db.log.Keys
    ensures Execute(actions + [action]) == Some(Perform(Execute(actions).value, action))
  {
    hide Inv, Enabled, Perform;
    ReachableInv(actions);
    InvParts(Execute(actions).value);
    assert (actions + [action])[..|actions|] == actions;
  }

  /** The row of the delivery has changed by the end of the longer run. */
  ghost predicate MovedBy(actions: seq<Action>, more: seq<Action>, id: DeliveryId)
    requires Execute(actions).Some? && id in Execute(actions).value.db.rows
  {
    && Execute(actions + more).Some?
    && var rows := Execute(actions + more).value.db.rows;
       id in rows && rows[id] != Execute(actions).value.db.rows[id]
  }

  /** A delivery that is being sent can still move if and only if some worker holds it. */
  lemma SendingMovesIffHeld(actions: seq<Action>, id: DeliveryId)
    requires Execute(actions).Some? && id in Execute(actions).value.db.rows
    requires Execute(actions).value.db.rows[id].status == Sending
    ensures IsHeld(Execute(actions).value, id) <==> exists more :: MovedBy(actions, more, id)
  {
    hide Execute, Inv, Perform, Ended;
    var s := Execute(actions).value;
    if IsHeld(s, id) {
      var t :| t in s.threads && Dispatches(s.threads[t], id);
      var give := Record(t, Refused(false, ""));
      ReachableInv(actions);
      Then(actions, give);
      RecordMoves(s, t, give.outcome, id);
      HolderHasTheRow(s, t);
      RefusalEnds(s.threads[t].row);
      assert MovedBy(actions, [give], id);
    } else if more :| MovedBy(actions, more, id) {
      StuckForGood(actions, more, id);
    }
  }

  lemma HolderHasTheRow(s: State, t: ThreadId)
    requires Inv(s) && t in s.threads && s.threads[t].Dispatcher?
    ensures s.threads[t].id in s.db.rows && s.db.rows[s.threads[t].id] == s.threads[t].row
    ensures s.threads[t].row.status == Sending
  {
    hide Inv, Consistent, Gated, PlanInv, MatcherInv, WorkerInv, HandlerInv;
    InvParts(s);
    WorkerHolds(s.db, s.threads, t);
  }

  lemma RefusalEnds(row: DeliveryRow)
    requires row.status == Sending
    ensures Ended(row, Refused(false, "")).Success?
    ensures Ended(row, Refused(false, "")).value.row.status == FailedPermanently
  {
  }

  /** A stuck delivery holds its chain: no later channel of the same alert and consumer is ever tried. */
  lemma StuckHoldsItsChain(actions: seq<Action>, more: seq<Action>, id: DeliveryId, later: DeliveryId)
    requires Execute(actions).Some? && IsStuck(Execute(actions).value, id) && Execute(actions + more).Some?
    requires var rows := Execute(actions + more).value.db.rows;
             && later in rows
             && SameChain(rows[later].plan, Execute(actions).value.db.rows[id].plan)
             && rows[later].plan.tier > Execute(actions).value.db.rows[id].plan.tier
    ensures var row := Execute(actions + more).value.db.rows[later];
            row.status == Queued && row.attemptCount == 0
  {
    hide Execute, Inv, Consistent, IsHeld;
    var s := Execute(actions + more).value;
    StuckForGood(actions, more, id);
    ReachableInv(actions + more);
    InvParts(s);
    QueuedHasNoAttempt(s.db, later);
  }

  lemma QueuedHasNoAttempt(db: Db, id: DeliveryId)
    requires Consistent(db) && id in db.rows && db.rows[id].status == Queued
    ensures db.rows[id].attemptCount == 0
  {
    Accounting(db.rows[id], db.log[id]);
  }

  /** A confirmed delivery stays confirmed. */
  lemma {:induction false} DeliveredForGood(actions: seq<Action>, more: seq<Action>, id: DeliveryId)
    requires Execute(actions).Some? && Execute(actions + more).Some?
    requires id in Execute(actions).value.db.rows && Execute(actions).value.db.rows[id].status == Delivered
    ensures id in Execute(actions + more).value.db.rows && Execute(actions + more).value.db.rows[id].status == Delivered
    decreases |more|
  {
    hide Execute, Inv, Enabled, Perform;
    if |more| == 0 {
      assert actions + more == actions;
    } else {
      var front := more[..|more| - 1];
      ExecuteSnoc(actions, more);
      DeliveredForGood(actions, front, id);
      ReachableInv(actions + front);
      RowMoves(Execute(actions + front).value, more[|more| - 1], id);
    }
  }

  // ---- Logs ----

  /** Every log of `before` is the first part of its log in `after`. */
  ghost predicate Extends(before: Db, after: Db) {
    forall id :: id in before.log ==> id in after.log && before.log[id] <= after.log[id]
  }

  lemma WriteExtends(db: Db, id: DeliveryId, transition: Transition)
    requires db.rows.Keys == db.log.Keys
    ensures Extends(db, WriteBack(db, id, transition))
  {
  }

  lemma LogsGrow(s: State, action: Action)
    requires s.db.rows.Keys == s.db.log.Keys && Enabled(s, action)
    ensures Extends(s.db, Perform(s, action).db)
  {
    hide GateOpen, KeyTaken, WellFormedPlan, ValidPreferences, Finds, Distinct, AllUnclaimed, CompareAndSet, WriteBack;
    if action.Start? {
      var id := s.threads[action.t].id;
      WriteExtends(s.db, id, Started(s.db.rows[id]));
      StartIsAWrite(s, action.t);
    } else if action.Record? {
      WriteExtends(s.db, s.threads[action.t].id, Ended(s.threads[action.t].row, action.outcome));
    } else if action.Apply? {
      WriteExtends(
        s.db, s.threads[action.t].id, AppliedEvent(s.threads[action.t].row, s.threads[action.t].event.status));
    } else if !action.InsertNext? {
      OthersLeaveTables(s, action);
    }
  }

  lemma StartIsAWrite(s: State, t: ThreadId)
    requires s.db.rows.Keys == s.db.log.Keys && Enabled(s, Start(t))
    ensures var id := s.threads[t].id;
            Perform(s, Start(t)).db == WriteBack(s.db, id, Started(s.db.rows[id]))
  {
    hide GateOpen, CompareAndSet;
  }

  lemma ExtendsFurther(first: Db, second: Db, third: Db)
    requires Extends(first, second) && Extends(second, third)
    ensures Extends(first, third)
  {
    forall id | id in first.log ensures id in third.log && first.log[id] <= third.log[id] {
      assert first.log[id] <= second.log[id] <= third.log[id];
    }
  }

  /** What is on record stays on record. */
  lemma {:induction false} LogsOnlyGrow(actions: seq<Action>, more: seq<Action>)
    requires Execute(actions).Some? && Execute(actions + more).Some?
    ensures Extends(Execute(actions).value.db, Execute(actions + more).value.db)
    decreases |more|
  {
    hide Execute, Enabled, Perform, Extends;
    if |more| == 0 {
      assert actions + more == actions;
      ExtendsItself(Execute(actions).value.db);
    } else {
      var front := more[..|more| - 1];
      ExecuteSnoc(actions, more);
      LogsOnlyGrow(actions, front);
      LogsGrow(Execute(actions + front).value, more[|more| - 1]);
      ExtendsFurther(Execute(actions).value.db, Execute(actions + front).value.db, Execute(actions + more).value.db);
    }
  }

  lemma ExtendsItself(db: Db)
    ensures Extends(db, db)
  {
  }

  /** A successful attempt of the delivery is on record under the message id. */
  ghost predicate IsSentUnder(db: Db, id: DeliveryId, message: string) {
    exists n: nat :: SentUnder(db, id, message, n)
  }

  lemma SentStaysSent(before: Db, after: Db, id: DeliveryId, message: string)
    requires Extends(before, after) && IsSentUnder(before, id, message)
    ensures IsSentUnder(after, id, message)
  {
    var n: nat :| SentUnder(before, id, message, n);
    var i :| 0 <= i < |before.log[id]| &&
             before.log[id][i].attempt == Some(DeliveryAttempt(n, SentAs(Some(message))));
    assert after.log[id][i] == before.log[id][i];
    assert SentUnder(after, id, message, n);
  }
}
