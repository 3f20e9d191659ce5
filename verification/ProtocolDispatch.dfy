/** Dispatch workers and callback handlers keep the protocol's invariant. */
module ProtocolDispatch {
  import opened Prelude
  import opened Identifiers
  import opened Deliveries
  import opened DeliveryLog
  import opened Database
  import opened Planning
  import opened Webhook
  import opened Protocol

  // ---- What a write to one existing delivery leaves true ----

  ghost predicate NotClaimed(threads: Threads, id: DeliveryId) {
    forall t :: t in threads && threads[t].Dispatcher? ==> threads[t].id != id
  }

  lemma PlansSurviveWrite(db: Db, id: DeliveryId, row: DeliveryRow, log: map<DeliveryId, seq<LogEntry>>,
                          outbox: OutboxTable, matched: AlertPlans)
    requires id in db.rows && row.plan == db.rows[id].plan
    requires PlanInv(db, outbox, matched)
    ensures PlanInv(Db(db.rows[id := row], log), outbox, matched)
  {
    hide WellFormedPlan;
    var after := Db(db.rows[id := row], log);
    forall a | a in matched ensures AlertPlanOk(after, a, matched[a]) {
      assert AlertPlanOk(db, a, matched[a]);
    }
  }

  lemma WorkersSurviveWrite(db: Db, id: DeliveryId, change: Change, threads: Threads)
    requires Consistent(db) && Gated(db) && Sound(db, id, change)
    requires WorkerInv(db, threads) && NotClaimed(threads, id)
    ensures WorkerInv(CompareAndSet(db, id, change), threads)
  {
    CompareAndSetKeeps(db, id, change);
    hide Consistent, Gated, GateOpen, Step;
    var after := CompareAndSet(db, id, change);
    forall t | t in threads ensures WorkerOk(after, threads[t]) {
      assert WorkerOk(db, threads[t]);
    }
  }

  lemma HandlersSurviveWrite(db: Db, id: DeliveryId, row: DeliveryRow, log: map<DeliveryId, seq<LogEntry>>,
                             replay: set<ReplayKey>, threads: Threads)
    requires id in db.rows && db.rows[id].status != Delivered
    requires db.rows[id].status == Sent ==>
               row == db.rows[id].(status := Delivered, version := db.rows[id].version + 1)
    requires HandlerInv(db, replay, threads)
    ensures HandlerInv(Db(db.rows[id := row], log), replay, threads)
  {
    var after := Db(db.rows[id := row], log);
    forall t | t in threads ensures HandlerOk(after, replay, threads[t]) {
      assert HandlerOk(db, replay, threads[t]);
    }
  }

  lemma SoundWrite(db: Db, id: DeliveryId, change: Change)
    requires Consistent(db) && Sound(db, id, change)
    ensures id in db.rows && db.rows[id].status != Delivered && change.row.plan == db.rows[id].plan
    ensures db.rows[id].status == Sent ==>
              change.row == db.rows[id].(status := Delivered, version := db.rows[id].version + 1)
    ensures db.rows.Keys == db.log.Keys
    ensures CompareAndSet(db, id, change) == Db(db.rows[id := change.row], CompareAndSet(db, id, change).log)
    ensures Applies(db, id, change)
  {
    hide Agrees, GateOpen;
    StepBasics(db.rows[id], change.entry);
  }

  lemma WriteKeeps(s: State, id: DeliveryId, change: Change)
    requires Inv(s) && Sound(s.db, id, change) && NotClaimed(s.threads, id)
    ensures Applies(s.db, id, change)
    ensures Inv(s.(db := CompareAndSet(s.db, id, change)))
  {
    hide Consistent, Gated, Sound, NotClaimed, PlanInv, MatcherInv, WorkerInv, HandlerInv, CompareAndSet;
    SoundWrite(s.db, id, change);
    CompareAndSetKeeps(s.db, id, change);
    var log := CompareAndSet(s.db, id, change).log;
    PlansSurviveWrite(s.db, id, change.row, log, s.outbox, s.matched);
    WorkersSurviveWrite(s.db, id, change, s.threads);
    HandlersSurviveWrite(s.db, id, change.row, log, s.replay, s.threads);
  }

  /** A thread that stops, whether finished, failed or crashed, breaks nothing. */
  lemma StopKeeps(s: State, t: ThreadId)
    requires Inv(s)
    ensures Inv(s.(threads := s.threads - {t}))
  {
    hide Consistent, Gated, PlanInv, MatcherOk, ApartFrom, WorkerOk, SameClaim, HandlerOk;
  }

  ghost predicate Fits(s: State, t: ThreadId, thread: Thread) {
    && !thread.Matcher?
    && WorkerOk(s.db, thread)
    && HandlerOk(s.db, s.replay, thread)
    && forall u :: u in s.threads && u != t ==> !SameClaim(s.threads[u], thread)
  }

  /** Replacing or adding a thread other than a matcher. */
  lemma ThreadKeeps(s: State, t: ThreadId, thread: Thread)
    requires Inv(s) && Fits(s, t, thread)
    ensures Inv(s.(threads := s.threads[t := thread]))
  {
    hide Consistent, Gated, PlanInv, MatcherOk, WorkerOk, HandlerOk;
  }

  // ---- Dispatch ----

  lemma OnlySendingIsClaimed(db: Db, threads: Threads, id: DeliveryId)
    requires WorkerInv(db, threads) && id in db.rows && db.rows[id].status != Sending
    ensures NotClaimed(threads, id)
  {
  }

  lemma StartIsSound(db: Db, threads: Threads, t: ThreadId)
    requires WorkerInv(db, threads) && t in threads && threads[t].Candidate?
    requires threads[t].id in db.rows && Waiting(db.rows[threads[t].id].status)
    ensures var id := threads[t].id;
            && Started(db.rows[id]).Success?
            && Sound(db, id, Started(db.rows[id]).value)
            && Started(db.rows[id]).value.row.status == Sending
            && NotClaimed(threads, id)
  {
    OnlySendingIsClaimed(db, threads, threads[t].id);
    assert WorkerOk(db, threads[t]);
  }

  lemma StartKeeps(s: State, t: ThreadId)
    requires Inv(s) && Enabled(s, Start(t))
    ensures Inv(Perform(s, Start(t)))
  {
    hide Consistent, Gated, GateOpen, Sound, PlanInv, MatcherInv, WorkerInv, HandlerInv, CompareAndSet, Inv;
    var id := s.threads[t].id;
    InvParts(s);
    StartIsSound(s.db, s.threads, t);
    var change := Started(s.db.rows[id]).value;
    WriteKeeps(s, id, change);
    SoundWrite(s.db, id, change);
    ThreadKeeps(s.(db := CompareAndSet(s.db, id, change)), t, Dispatcher(id, change.row));
  }

  lemma RecordIsSound(db: Db, threads: Threads, t: ThreadId, outcome: SendOutcome)
    requires WorkerInv(db, threads) && t in threads && threads[t].Dispatcher?
    ensures var Dispatcher(id, row) := threads[t];
            && Ended(row, outcome).Success?
            && Sound(db, id, Ended(row, outcome).value)
            && NotClaimed(threads - {t}, id)
  {
    assert WorkerOk(db, threads[t]);
    hide GateOpen;
    forall u | u in threads - {t} && threads[u].Dispatcher? ensures threads[u].id != threads[t].id {
      assert !SameClaim(threads[t], threads[u]);
    }
  }

  /** Recording an outcome always succeeds in memory, and the write always reaches the table:
      no callback or other worker can have moved a delivery while it was being sent. */
  lemma RecordKeeps(s: State, t: ThreadId, outcome: SendOutcome)
    requires Inv(s) && Enabled(s, Record(t, outcome))
    ensures Inv(Perform(s, Record(t, outcome)))
    ensures Ended(s.threads[t].row, outcome).Success?
    ensures Applies(s.db, s.threads[t].id, Ended(s.threads[t].row, outcome).value)
  {
    var Dispatcher(id, row) := s.threads[t];
    hide Consistent, Gated, Sound, Ended, NotClaimed, PlanInv, MatcherInv, WorkerInv, HandlerInv, CompareAndSet;
    RecordIsSound(s.db, s.threads, t, outcome);
    StopKeeps(s, t);
    WriteKeeps(s.(threads := s.threads - {t}), id, Ended(row, outcome).value);
  }

  // ---- Callbacks ----

  /** What a handler's copy can still do: confirm the delivery if nobody has, and nothing else. */
  lemma ApplyIsSoundOrIdle(db: Db, replay: set<ReplayKey>, threads: Threads, t: ThreadId)
    requires Consistent(db) && HandlerInv(db, replay, threads) && WorkerInv(db, threads)
    requires t in threads && threads[t].Loaded?
    ensures var Loaded(id, row, event) := threads[t];
            var transition := AppliedEvent(row, event.status);
            && id in db.rows
            && NotClaimed(threads - {t}, id)
            && if event.status == ReportsDelivered && db.rows[id].status == Sent
               then row == db.rows[id] && transition.Success? && Sound(db, id, transition.value)
               else WriteBack(db, id, transition) == db
  {
    assert HandlerOk(db, replay, threads[t]);
    OnlySendingIsClaimed(db, threads, threads[t].id);
    hide Agrees, GateOpen, WorkerInv, HandlerInv;
  }

  /** The tables after a handler writes back. */
  lemma ApplyEffect(db: Db, replay: set<ReplayKey>, threads: Threads, t: ThreadId)
    requires Consistent(db) && HandlerInv(db, replay, threads) && WorkerInv(db, threads)
    requires t in threads && threads[t].Loaded?
    ensures db.rows.Keys == db.log.Keys
    ensures var Loaded(id, row, event) := threads[t];
            var after := WriteBack(db, id, AppliedEvent(row, event.status));
            && id in db.rows
            && db.rows[id].status in {Sent, Delivered}
            && after.rows.Keys == db.rows.Keys
            && (forall e :: e in db.rows && e != id ==> after.rows[e] == db.rows[e])
            && match event.status
               case ReportsFailed(_, _) => after == db && AppliedEvent(row, event.status).Failure?
               case ReportsDelivered =>
                 after.rows[id].status == Delivered && (db.rows[id].status == Delivered ==> after == db)
  {
    ApplyIsSoundOrIdle(db, replay, threads, t);
    assert HandlerOk(db, replay, threads[t]);
    var Loaded(id, row, event) := threads[t];
    if event.status == ReportsDelivered && db.rows[id].status == Sent {
      SoundWrite(db, id, AppliedEvent(row, event.status).value);
    }
    hide Agrees, Sound, GateOpen, HandlerInv, WorkerInv, NotClaimed;
  }

  lemma ApplyKeeps(s: State, t: ThreadId)
    requires Inv(s) && Enabled(s, Apply(t))
    ensures Inv(Perform(s, Apply(t)))
  {
    var Loaded(id, row, event) := s.threads[t];
    hide Gated, Sound, AppliedEvent, NotClaimed, PlanInv, MatcherInv, WorkerInv, HandlerInv, CompareAndSet, Agrees;
    ApplyIsSoundOrIdle(s.db, s.replay, s.threads, t);
    StopKeeps(s, t);
    if event.status == ReportsDelivered && s.db.rows[id].status == Sent {
      WriteKeeps(s.(threads := s.threads - {t}), id, AppliedEvent(row, event.status).value);
    }
  }

  lemma LoadFits(s: State, t: ThreadId)
    requires HandlerInv(s.db, s.replay, s.threads) && Enabled(s, Load(t))
    ensures Fits(s, t, Loaded(s.threads[t].id, s.db.rows[s.threads[t].id], s.threads[t].event))
  {
    assert HandlerOk(s.db, s.replay, s.threads[t]);
  }

  lemma FoundIsSentOrDelivered(db: Db, message: string, id: DeliveryId)
    requires Consistent(db) && Finds(db, message, id)
    ensures id in db.rows && db.rows[id].status in {Sent, Delivered}
  {
    FoundWasSent(db, message, id);
    SentIffRecorded(db.rows[id], db.log[id]);
  }

  lemma LocateFits(s: State, t: ThreadId, id: DeliveryId)
    requires Consistent(s.db) && Enabled(s, Locate(t, id))
    ensures Fits(s, t, Located(id, s.threads[t].event))
  {
    FoundIsSentOrDelivered(s.db, s.threads[t].event.providerMessageId, id);
    hide Finds;
  }

  lemma HandlersSurviveReplay(db: Db, replay: set<ReplayKey>, key: ReplayKey, threads: Threads)
    requires HandlerInv(db, replay, threads)
    ensures HandlerInv(db, replay + {key}, threads)
  {
    forall t | t in threads ensures HandlerOk(db, replay + {key}, threads[t]) {
      assert HandlerOk(db, replay, threads[t]);
    }
  }

  lemma ArriveKeeps(s: State, t: ThreadId, event: WebhookEvent)
    requires Inv(s) && Enabled(s, Arrive(t, event))
    ensures Inv(Perform(s, Arrive(t, event)))
  {
    hide Consistent, Gated, GateOpen, PlanInv, MatcherInv, WorkerInv, HandlerInv;
    HandlersSurviveReplay(s.db, s.replay, KeyOf(event), s.threads);
    ThreadKeeps(s.(replay := s.replay + {KeyOf(event)}), t, Recorded(event));
  }

  lemma LocateKeeps(s: State, t: ThreadId, id: DeliveryId)
    requires Inv(s) && Enabled(s, Locate(t, id))
    ensures Inv(Perform(s, Locate(t, id)))
  {
    hide Consistent, Gated, PlanInv, MatcherInv, WorkerInv, HandlerInv, Fits, Finds;
    LocateFits(s, t, id);
    ThreadKeeps(s, t, Located(id, s.threads[t].event));
  }

  lemma LoadKeeps(s: State, t: ThreadId)
    requires Inv(s) && Enabled(s, Load(t))
    ensures Inv(Perform(s, Load(t)))
  {
    hide Consistent, Gated, PlanInv, MatcherInv, WorkerInv, HandlerInv, Fits;
    LoadFits(s, t);
    ThreadKeeps(s, t, Loaded(s.threads[t].id, s.db.rows[s.threads[t].id], s.threads[t].event));
  }

  lemma SelectKeeps(s: State, t: ThreadId, id: DeliveryId)
    requires Inv(s) && Enabled(s, Select(t, id))
    ensures Inv(Perform(s, Select(t, id)))
  {
    hide Consistent, Gated, GateOpen, PlanInv, MatcherInv, WorkerInv, HandlerInv;
    ThreadKeeps(s, t, Candidate(id));
  }
}
