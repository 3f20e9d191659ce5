/** Streams of callbacks over whole runs: repeats change nothing, wherever their handlers stand, and exactly
    which reports take effect. */
module ProtocolCallbacks {
  import opened Prelude
  import opened Identifiers
  import opened Deliveries
  import opened DeliveryLog
  import opened Database
  import opened Planning
  import opened Webhook
  import opened Protocol
  import ProtocolDispatch
  import opened ProtocolSafety
  import opened ProtocolRows

  // ---- Repeats ----

  function ArrivedKeys(actions: seq<Action>): set<ReplayKey> {
    if |actions| == 0 then {}
    else
      var earlier, last := ArrivedKeys(actions[..|actions| - 1]), actions[|actions| - 1];
      if last.Arrive? then earlier + {KeyOf(last.event)} else earlier
  }

  /** The run without the arrivals whose key arrived earlier. */
  function FirstArrivals(actions: seq<Action>): seq<Action> {
    if |actions| == 0 then []
    else
      var front, last := actions[..|actions| - 1], actions[|actions| - 1];
      if last.Arrive? && KeyOf(last.event) in ArrivedKeys(front) then FirstArrivals(front)
      else FirstArrivals(front) + [last]
  }

  lemma ReplayStep(s: State, action: Action)
    requires s.db.rows.Keys == s.db.log.Keys && Enabled(s, action)
    ensures Perform(s, action).replay == if action.Arrive? then s.replay + {KeyOf(action.event)} else s.replay
    ensures action.Arrive? && KeyOf(action.event) in s.replay ==> Perform(s, action) == s
  {
    hide GateOpen, KeyTaken, WellFormedPlan, ValidPreferences, Finds, Distinct, AllUnclaimed, CompareAndSet, Inserted,
      WriteBack, Started;
  }

  /** The replay guard remembers exactly the keys that have arrived. */
  lemma {:induction false} ReplayIsArrivedKeys(actions: seq<Action>)
    requires Execute(actions).Some?
    ensures Execute(actions).value.replay == ArrivedKeys(actions)
  {
    hide Enabled, Perform;
    if |actions| > 0 {
      var front := actions[..|actions| - 1];
      ReplayIsArrivedKeys(front);
      ReplayStep(Execute(front).value, actions[|actions| - 1]);
    }
  }

  /** Whatever is interleaved, inside the handlers too, a run leads exactly where it leads without its repeated
      callbacks. */
  lemma {:induction false} RepeatsChangeNothing(actions: seq<Action>)
    requires Execute(actions).Some?
    ensures Execute(FirstArrivals(actions)) == Execute(actions)
  {
    hide Inv, Enabled, Perform;
    if |actions| > 0 {
      var front, last := actions[..|actions| - 1], actions[|actions| - 1];
      RepeatsChangeNothing(front);
      ReplayIsArrivedKeys(front);
      ReplayStep(Execute(front).value, last);
      if !(last.Arrive? && KeyOf(last.event) in ArrivedKeys(front)) {
        Then(FirstArrivals(front), last);
      }
    }
  }

  /** And a repeat may be added at the end of any run, by any thread that is free. */
  lemma RepeatCanBeAdded(actions: seq<Action>, t: ThreadId, event: WebhookEvent)
    requires Execute(actions).Some? && t !in Execute(actions).value.threads && KeyOf(event) in ArrivedKeys(actions)
    ensures Execute(actions + [Arrive(t, event)]) == Execute(actions)
  {
    hide Execute, Inv, Perform, ArrivedKeys;
    ReplayIsArrivedKeys(actions);
    Then(actions, Arrive(t, event));
    ReplayStep(Execute(actions).value, Arrive(t, event));
  }

  /** The event's channel and event id are those of an event that has arrived before. */
  predicate HasArrived(actions: seq<Action>, event: WebhookEvent) {
    exists i :: 0 <= i < |actions| && actions[i].Arrive? &&
                actions[i].event.channel == event.channel && actions[i].event.providerEventId == event.providerEventId
  }

  lemma {:induction false} ArrivedIff(actions: seq<Action>, event: WebhookEvent)
    ensures KeyOf(event) in ArrivedKeys(actions) <==> HasArrived(actions, event)
  {
    if |actions| > 0 {
      var front, last := actions[..|actions| - 1], actions[|actions| - 1];
      ArrivedIff(front, event);
      if last.Arrive? {
        KeysAgreeIff(last.event, event);
      }
      if HasArrived(front, event) {
        var i :| && 0 <= i < |front| && front[i].Arrive?
                 && front[i].event.channel == event.channel && front[i].event.providerEventId == event.providerEventId;
        assert actions[i] == front[i];
      }
      if HasArrived(actions, event) {
        var i :| && 0 <= i < |actions| && actions[i].Arrive? && actions[i].event.channel == event.channel
                 && actions[i].event.providerEventId == event.providerEventId;
        if i < |front| {
          assert front[i] == actions[i];
        }
      }
    }
  }

  /** An event whose channel and event id together have not arrived before gets past the guard to its lookup, whatever
      message id it names; any other changes nothing. */
  lemma NewEventsReachTheirLookup(actions: seq<Action>, t: ThreadId, event: WebhookEvent)
    requires Execute(actions).Some? && t !in Execute(actions).value.threads
    ensures Execute(actions + [Arrive(t, event)]).Some?
    ensures var s, after := Execute(actions).value, Execute(actions + [Arrive(t, event)]).value;
            if HasArrived(actions, event) then after == s
            else
              && after.threads == s.threads[t := Recorded(event)]
              && after.db == s.db && after.outbox == s.outbox && after.matched == s.matched
  {
    hide Execute, Inv, ArrivedKeys, HasArrived;
    ReplayIsArrivedKeys(actions);
    ArrivedIff(actions, event);
    Then(actions, Arrive(t, event));
  }

  // ---- The handler of a key ----

  /** The event that a handler thread is working on. */
  function EventOf(thread: Thread): Option<WebhookEvent> {
    match thread
    case Recorded(event) => Some(event)
    case Located(_, event) => Some(event)
    case Loaded(_, _, event) => Some(event)
    case _ => None
  }

  predicate Carries(thread: Thread, key: ReplayKey) {
    EventOf(thread).Some? && KeyOf(EventOf(thread).value) == key
  }

  /** Past the guard, before the lookup. */
  ghost predicate IsWaiting(s: State, key: ReplayKey) {
    exists t :: t in s.threads && Carries(s.threads[t], key) && s.threads[t].Recorded?
  }

  /** Past the lookup, before the write. */
  ghost predicate IsApplying(s: State, key: ReplayKey) {
    exists t :: t in s.threads && Carries(s.threads[t], key) && !s.threads[t].Recorded?
  }

  ghost predicate InFlight(s: State, key: ReplayKey) {
    IsWaiting(s, key) || IsApplying(s, key)
  }

  /** What a handler does with its event once it is past the guard. */
  datatype HandlerStep = Finding | Missing | Writing | Dying

  function StepFor(s: State, action: Action, key: ReplayKey): Option<HandlerStep> {
    match action
    case Locate(t, _) => if t in s.threads && Carries(s.threads[t], key) then Some(Finding) else None
    case Miss(t) => if t in s.threads && Carries(s.threads[t], key) then Some(Missing) else None
    case Apply(t) => if t in s.threads && Carries(s.threads[t], key) then Some(Writing) else None
    case Stop(t) => if t in s.threads && Carries(s.threads[t], key) then Some(Dying) else None
    case _ => None
  }

  /** Some step of the run was that step of the key's handler. */
  ghost predicate Happened(actions: seq<Action>, key: ReplayKey, what: HandlerStep) {
    exists k :: 0 <= k < |actions| && Execute(actions[..k]).Some? &&
                StepFor(Execute(actions[..k]).value, actions[k], key) == Some(what)
  }

  lemma HappenedSnoc(actions: seq<Action>, key: ReplayKey, what: HandlerStep)
    requires Execute(actions).Some? && |actions| > 0
    ensures var front := actions[..|actions| - 1];
            && Execute(front).Some?
            && (Happened(actions, key, what) <==>
                  Happened(front, key, what) ||
                  StepFor(Execute(front).value, actions[|actions| - 1], key) == Some(what))
  {
    hide StepFor, Enabled, Perform;
    var front := actions[..|actions| - 1];
    assert Execute(front).Some?;
    hide Execute;
    assert forall k :: 0 <= k < |front| ==> front[..k] == actions[..k] && front[k] == actions[k];
    if Happened(front, key, what) {
      var k :| 0 <= k < |front| && Execute(front[..k]).Some? &&
               StepFor(Execute(front[..k]).value, front[k], key) == Some(what);
      assert Execute(actions[..k]).Some?;
    }
    if Happened(actions, key, what) {
      var k :| 0 <= k < |actions| && Execute(actions[..k]).Some? &&
               StepFor(Execute(actions[..k]).value, actions[k], key) == Some(what);
      if k < |front| {
        assert Execute(front[..k]).Some?;
      }
    }
  }

  /** A key has at most one handler, and only a key that has arrived has one. */
  ghost predicate OneHandlerEach(s: State) {
    && (forall t, u, key :: t in s.threads && u in s.threads && Carries(s.threads[t], key) && Carries(s.threads[u], key)
          ==> t == u)
    && (forall t, key :: t in s.threads && Carries(s.threads[t], key) ==> key in s.replay)
  }

  /** What one step does to the handler of `key`. */
  ghost predicate HandlerMoves(s: State, action: Action, after: State, key: ReplayKey) {
    match StepFor(s, action, key)
    case None =>
      && (IsWaiting(after, key) <==>
            IsWaiting(s, key) || (action.Arrive? && KeyOf(action.event) == key && key !in s.replay))
      && (IsApplying(after, key) <==> IsApplying(s, key))
    case Some(Finding) => IsWaiting(s, key) && !IsWaiting(after, key) && IsApplying(after, key)
    case Some(Missing) => IsWaiting(s, key) && !InFlight(after, key)
    case Some(Writing) => IsApplying(s, key) && !InFlight(after, key)
    case Some(Dying) => InFlight(s, key) && !InFlight(after, key)
  }

  /** Only thread `t` differs. */
  ghost predicate OnlyAt(before: Threads, after: Threads, t: ThreadId) {
    forall u :: u != t ==> (u in before <==> u in after) && (u in before ==> before[u] == after[u])
  }

  predicate WaitsAt(threads: Threads, t: ThreadId, key: ReplayKey) {
    t in threads && Carries(threads[t], key) && threads[t].Recorded?
  }

  predicate AppliesAt(threads: Threads, t: ThreadId, key: ReplayKey) {
    t in threads && Carries(threads[t], key) && !threads[t].Recorded?
  }

  lemma ElsewhereTheSame(s: State, after: State, t: ThreadId, key: ReplayKey)
    requires OneHandlerEach(s) && OnlyAt(s.threads, after.threads, t)
    ensures if t in s.threads && Carries(s.threads[t], key) then
              && (IsWaiting(s, key) <==> WaitsAt(s.threads, t, key))
              && (IsApplying(s, key) <==> AppliesAt(s.threads, t, key))
              && (IsWaiting(after, key) <==> WaitsAt(after.threads, t, key))
              && (IsApplying(after, key) <==> AppliesAt(after.threads, t, key))
            else
              && (IsWaiting(after, key) <==> IsWaiting(s, key) || WaitsAt(after.threads, t, key))
              && (IsApplying(after, key) <==> IsApplying(s, key) || AppliesAt(after.threads, t, key))
  {
    hide Carries;
  }

  lemma OneHandlerStays(s: State, after: State, t: ThreadId)
    requires OneHandlerEach(s) && OnlyAt(s.threads, after.threads, t) && s.replay <= after.replay
    requires forall key :: t in after.threads && Carries(after.threads[t], key) ==>
               key in after.replay && ((t in s.threads && Carries(s.threads[t], key)) || key !in s.replay)
    ensures OneHandlerEach(after)
  {
    hide Carries;
  }

  /** The thread whose turn it is, its event before and after, and how far it is with it. */
  lemma TurnOf(s: State, action: Action)
    requires s.db.rows.Keys == s.db.log.Keys && Enabled(s, action) && !action.NewAlert?
    ensures var after := Perform(s, action);
            var t := action.t;
            && OnlyAt(s.threads, after.threads, t)
            && match action
               case Arrive(_, event) =>
                 && t !in s.threads
                 && (if KeyOf(event) in s.replay then after == s
                     else t in after.threads && after.threads[t] == Recorded(event))
               case Locate(_, _) =>
                 && t in s.threads && s.threads[t].Recorded?
                 && t in after.threads && after.threads[t].Located? && after.threads[t].event == s.threads[t].event
               case Load(_) =>
                 && t in s.threads && s.threads[t].Located?
                 && t in after.threads && after.threads[t].Loaded? && after.threads[t].event == s.threads[t].event
               case Miss(_) => t in s.threads && s.threads[t].Recorded? && t !in after.threads
               case Apply(_) => t in s.threads && s.threads[t].Loaded? && t !in after.threads
               case Stop(_) => t in s.threads && t !in after.threads
               case _ =>
                 && (t in s.threads ==> EventOf(s.threads[t]).None?)
                 && (t in after.threads ==> EventOf(after.threads[t]).None?)
  {
    hide GateOpen, KeyTaken, WellFormedPlan, ValidPreferences, Finds, Distinct, AllUnclaimed, CompareAndSet, Inserted,
      WriteBack, Started;
  }

  lemma NewAlertLeavesThreads(s: State, alert: AlertId)
    requires s.db.rows.Keys == s.db.log.Keys && Enabled(s, NewAlert(alert))
    ensures Perform(s, NewAlert(alert)).threads == s.threads
  {
  }

  lemma HandlerStepMoves(s: State, action: Action, key: ReplayKey)
    requires s.db.rows.Keys == s.db.log.Keys && Enabled(s, action) && OneHandlerEach(s)
    ensures OneHandlerEach(Perform(s, action)) && HandlerMoves(s, action, Perform(s, action), key)
  {
    hide Enabled, Perform, OnlyAt, OneHandlerEach, IsWaiting, IsApplying;
    var after := Perform(s, action);
    ReplayStep(s, action);
    if action.NewAlert? {
      NewAlertLeavesThreads(s, action.alert);
      SameThreads(s, after, key);
    } else {
      TurnOf(s, action);
      ElsewhereTheSame(s, after, action.t, key);
      ArrivalsOnly(s, action);
      OneHandlerStays(s, after, action.t);
    }
  }

  lemma SameThreads(s: State, after: State, key: ReplayKey)
    requires OneHandlerEach(s) && after.threads == s.threads && after.replay == s.replay
    ensures OneHandlerEach(after)
    ensures IsWaiting(after, key) <==> IsWaiting(s, key)
    ensures IsApplying(after, key) <==> IsApplying(s, key)
  {
  }

  lemma ArrivalsOnly(s: State, action: Action)
    requires s.db.rows.Keys == s.db.log.Keys && Enabled(s, action) && !action.NewAlert? && OneHandlerEach(s)
    ensures var after, t := Perform(s, action), action.t;
            forall key :: t in after.threads && Carries(after.threads[t], key) ==>
              key in after.replay && ((t in s.threads && Carries(s.threads[t], key)) || key !in s.replay)
  {
    hide Enabled, Perform, OnlyAt;
    TurnOf(s, action);
    ReplayStep(s, action);
  }

  // ---- Which reports take effect ----

  /** How the handler of an arrived key can stand: waiting, applying, or done in one of three ways. */
  ghost predicate Story(actions: seq<Action>, s: State, key: ReplayKey) {
    var found, missed := Happened(actions, key, Finding), Happened(actions, key, Missing);
    var wrote, died := Happened(actions, key, Writing), Happened(actions, key, Dying);
    if key !in s.replay then !InFlight(s, key) && !found && !missed && !wrote && !died
    else if IsWaiting(s, key) then !IsApplying(s, key) && !found && !missed && !wrote && !died
    else if IsApplying(s, key) then found && !missed && !wrote && !died
    else
      || (found && wrote && !missed && !died)
      || (missed && !found && !wrote && !died)
      || (died && !wrote && !missed)
  }

  lemma {:induction false} EveryHandlersStory(actions: seq<Action>, key: ReplayKey)
    requires Execute(actions).Some?
    ensures OneHandlerEach(Execute(actions).value)
    ensures Story(actions, Execute(actions).value, key)
  {
    hide Enabled, Perform, Inv, OneHandlerEach, IsWaiting, IsApplying, Happened, StepFor;
    if |actions| == 0 {
      NothingYet(actions, key);
    } else {
      var front, last := actions[..|actions| - 1], actions[|actions| - 1];
      var s := Execute(front).value;
      EveryHandlersStory(front, key);
      HandlerStepMoves(s, last, key);
      ReplayStep(s, last);
      OneHandlerMeans(s, key);
      HappenedSnoc(actions, key, Finding);
      HappenedSnoc(actions, key, Missing);
      HappenedSnoc(actions, key, Writing);
      HappenedSnoc(actions, key, Dying);
      StepsNameHandlers(s, last, key);
    }
  }

  lemma NothingYet(actions: seq<Action>, key: ReplayKey)
    requires |actions| == 0
    ensures OneHandlerEach(INIT) && !InFlight(INIT, key)
    ensures forall what :: !Happened(actions, key, what)
  {
  }

  lemma OneHandlerMeans(s: State, key: ReplayKey)
    requires OneHandlerEach(s)
    ensures InFlight(s, key) ==> key in s.replay
  {
  }

  lemma StepsNameHandlers(s: State, action: Action, key: ReplayKey)
    ensures action.Arrive? ==> StepFor(s, action, key).None?
  {
  }

  /** The event a key first arrived with. */
  function FirstEvent(actions: seq<Action>, key: ReplayKey): Option<WebhookEvent> {
    if |actions| == 0 then None
    else
      var earlier, last := FirstEvent(actions[..|actions| - 1], key), actions[|actions| - 1];
      if earlier.Some? then earlier
      else if last.Arrive? && KeyOf(last.event) == key then Some(last.event)
      else None
  }

  lemma {:induction false} ArrivedHasFirst(actions: seq<Action>, key: ReplayKey)
    ensures FirstEvent(actions, key).Some? <==> key in ArrivedKeys(actions)
  {
    if |actions| > 0 {
      ArrivedHasFirst(actions[..|actions| - 1], key);
    }
  }

  lemma {:induction false} FirstStaysFirst(actions: seq<Action>, k: nat, key: ReplayKey)
    requires k <= |actions| && FirstEvent(actions[..k], key).Some?
    ensures FirstEvent(actions, key) == FirstEvent(actions[..k], key)
  {
    if k < |actions| {
      assert actions[..|actions| - 1][..k] == actions[..k];
      FirstStaysFirst(actions[..|actions| - 1], k, key);
    } else {
      assert actions[..k] == actions;
    }
  }

  /** A handler works on the event its key first arrived with, whatever a repeat may say. */
  lemma {:induction false} HandlersCarryTheFirst(actions: seq<Action>, key: ReplayKey, t: ThreadId)
    requires Execute(actions).Some? && t in Execute(actions).value.threads
    requires Carries(Execute(actions).value.threads[t], key)
    ensures EventOf(Execute(actions).value.threads[t]) == FirstEvent(actions, key)
  {
    hide Enabled, Perform, Inv, OneHandlerEach, OnlyAt;
    if |actions| > 0 {
      var front, last := actions[..|actions| - 1], actions[|actions| - 1];
      var s := Execute(front).value;
      CarriedBefore(s, last, t);
      if t in s.threads && EventOf(s.threads[t]) == EventOf(Execute(actions).value.threads[t]) {
        HandlersCarryTheFirst(front, key, t);
      } else {
        ReplayIsArrivedKeys(front);
        ArrivedHasFirst(front, key);
      }
    }
  }

  lemma CarriedBefore(s: State, action: Action, t: ThreadId)
    requires s.db.rows.Keys == s.db.log.Keys && Enabled(s, action)
    requires t in Perform(s, action).threads && EventOf(Perform(s, action).threads[t]).Some?
    ensures var event := EventOf(Perform(s, action).threads[t]);
            || (t in s.threads && EventOf(s.threads[t]) == event)
            || (action == Arrive(t, event.value) && KeyOf(event.value) !in s.replay)
  {
    hide Enabled, Perform;
    if action.NewAlert? {
      NewAlertLeavesThreads(s, action.alert);
    } else {
      TurnOf(s, action);
    }
  }

  lemma {:induction false} PrefixRuns(actions: seq<Action>, k: nat)
    requires Execute(actions).Some? && k <= |actions|
    ensures Execute(actions[..k]).Some?
    ensures k < |actions| ==>
              var s := Execute(actions[..k]).value;
              && s.db.rows.Keys == s.db.log.Keys && Enabled(s, actions[k])
              && Execute(actions[..k + 1]) == Some(Perform(s, actions[k]))
  {
    hide Inv, Enabled, Perform;
    if k == |actions| {
      assert actions[..k] == actions;
    } else if k == |actions| - 1 {
      assert actions[..k + 1] == actions;
    } else {
      var front := actions[..|actions| - 1];
      assert front[..k] == actions[..k] && front[..k + 1] == actions[..k + 1];
      PrefixRuns(front, k);
    }
  }

  /** Step `k` writes the key's report to a delivery sent under the message id the report names, which is confirmed
      afterwards. */
  ghost predicate ConfirmsAt(actions: seq<Action>, k: nat, key: ReplayKey, id: DeliveryId) {
    && k < |actions|
    && Execute(actions[..k]).Some? && Execute(actions[..k + 1]).Some?
    && var s, after := Execute(actions[..k]).value, Execute(actions[..k + 1]).value;
       && StepFor(s, actions[k], key) == Some(Writing)
       && s.threads[actions[k].t].Loaded? && s.threads[actions[k].t].id == id
       && FirstEvent(actions, key).Some? && IsSentUnder(s.db, id, FirstEvent(actions, key).value.providerMessageId)
       && id in after.db.rows && after.db.rows[id].status == Delivered
  }

  ghost predicate Confirms(actions: seq<Action>, key: ReplayKey, id: DeliveryId) {
    exists k: nat :: ConfirmsAt(actions, k, key, id)
  }

  /** The delivery a handler's lookup found, once it has. */
  function FoundBy(thread: Thread): Option<DeliveryId> {
    match thread
    case Located(id, _) => Some(id)
    case Loaded(id, _, _) => Some(id)
    case _ => None
  }

  lemma FoundBefore(s: State, action: Action, t: ThreadId)
    requires s.db.rows.Keys == s.db.log.Keys && Enabled(s, action)
    requires t in Perform(s, action).threads && FoundBy(Perform(s, action).threads[t]).Some?
    ensures var thread := Perform(s, action).threads[t];
            && t in s.threads && EventOf(s.threads[t]) == EventOf(thread)
            && (|| FoundBy(s.threads[t]) == FoundBy(thread)
                || Finds(s.db, EventOf(thread).value.providerMessageId, FoundBy(thread).value))
  {
    hide GateOpen, KeyTaken, WellFormedPlan, ValidPreferences, Finds, Distinct, AllUnclaimed, CompareAndSet, Inserted,
      WriteBack, Started;
  }

  lemma FindingIsSent(db: Db, id: DeliveryId, message: string)
    requires Finds(db, message, id)
    ensures IsSentUnder(db, id, message)
  {
    hide SentUnder;
  }

  /** A handler past its lookup holds a delivery that was sent under the message id its event names. */
  lemma {:induction false} HandlersFoundTheirs(actions: seq<Action>, t: ThreadId)
    requires Execute(actions).Some? && t in Execute(actions).value.threads
    requires FoundBy(Execute(actions).value.threads[t]).Some?
    ensures var s := Execute(actions).value;
            EventOf(s.threads[t]).Some? &&
            IsSentUnder(s.db, FoundBy(s.threads[t]).value, EventOf(s.threads[t]).value.providerMessageId)
  {
    hide Enabled, Perform, IsSentUnder, Extends, Finds;
    if |actions| > 0 {
      var front, last := actions[..|actions| - 1], actions[|actions| - 1];
      var s, after := Execute(front).value, Execute(actions).value;
      var id, message := FoundBy(after.threads[t]).value, EventOf(after.threads[t]).value.providerMessageId;
      FoundBefore(s, last, t);
      if FoundBy(s.threads[t]) == FoundBy(after.threads[t]) {
        HandlersFoundTheirs(front, t);
      } else {
        FindingIsSent(s.db, id, message);
      }
      LogsGrow(s, last);
      SentStaysSent(s.db, after.db, id, message);
    }
  }

  lemma WriteConfirms(actions: seq<Action>, key: ReplayKey) returns (id: DeliveryId)
    requires Execute(actions).Some? && Happened(actions, key, Writing)
    requires FirstEvent(actions, key).Some? && FirstEvent(actions, key).value.status.ReportsDelivered?
    ensures Confirms(actions, key, id)
  {
    hide Execute, Inv, Perform, FirstEvent, Finds, GateOpen, IsSentUnder;
    var k: nat :| k < |actions| && Execute(actions[..k]).Some? &&
                  StepFor(Execute(actions[..k]).value, actions[k], key) == Some(Writing);
    PrefixRuns(actions, k);
    var s, t := Execute(actions[..k]).value, actions[k].t;
    HandlersCarryTheFirst(actions[..k], key, t);
    FirstStaysFirst(actions, k, key);
    DeliveryReportsStick(actions[..k], t);
    HandlersFoundTheirs(actions[..k], t);
    id := s.threads[t].id;
    assert ConfirmsAt(actions, k, key, id);
  }

  /** A delivery report whose handler is done took effect if and only if its lookup found a recorded send and
      the handler did not die before its write. */
  lemma ReportTakesEffectIff(actions: seq<Action>, key: ReplayKey)
    requires Execute(actions).Some?
    requires FirstEvent(actions, key).Some? && FirstEvent(actions, key).value.status.ReportsDelivered?
    requires !InFlight(Execute(actions).value, key)
    ensures (exists id :: Confirms(actions, key, id)) <==>
            Happened(actions, key, Finding) && !Happened(actions, key, Dying)
  {
    hide Execute, Inv, FirstEvent, IsWaiting, IsApplying, Happened, ArrivedKeys, ConfirmsAt;
    EveryHandlersStory(actions, key);
    ArrivedHasFirst(actions, key);
    ReplayIsArrivedKeys(actions);
    if Happened(actions, key, Writing) {
      var id := WriteConfirms(actions, key);
    }
    if id :| Confirms(actions, key, id) {
      var k: nat :| ConfirmsAt(actions, k, key, id);
      ConfirmingIsWriting(actions, k, key, id);
    }
  }

  lemma ConfirmingIsWriting(actions: seq<Action>, k: nat, key: ReplayKey, id: DeliveryId)
    requires ConfirmsAt(actions, k, key, id)
    ensures Happened(actions, key, Writing)
  {
    hide Execute, StepFor;
  }

  /** What was confirmed is confirmed at the end of the run. */
  lemma ConfirmedAtTheEnd(actions: seq<Action>, key: ReplayKey, id: DeliveryId)
    requires Execute(actions).Some? && Confirms(actions, key, id)
    ensures id in Execute(actions).value.db.rows && Execute(actions).value.db.rows[id].status == Delivered
  {
    hide Execute, StepFor;
    var k: nat :| ConfirmsAt(actions, k, key, id);
    assert actions[..k + 1] + actions[k + 1..] == actions;
    DeliveredForGood(actions[..k + 1], actions[k + 1..], id);
  }

  /** Message ids identify deliveries: no two have a send on record under the same one. */
  ghost predicate MessageIsUnique(db: Db, message: string) {
    forall d, e :: IsSentUnder(db, d, message) && IsSentUnder(db, e, message) ==> d == e
  }

  /** The delivery a report confirmed is on record as sent under the report's message id, and, where message ids are
      unique among the recorded sends, it is the only one. */
  lemma ConfirmedIsTheOneMeant(actions: seq<Action>, key: ReplayKey, id: DeliveryId)
    requires Execute(actions).Some? && Confirms(actions, key, id)
    ensures FirstEvent(actions, key).Some?
    ensures var db, message := Execute(actions).value.db, FirstEvent(actions, key).value.providerMessageId;
            && IsSentUnder(db, id, message)
            && (MessageIsUnique(db, message) ==> forall e :: IsSentUnder(db, e, message) <==> e == id)
  {
    hide Execute, StepFor, IsSentUnder, Extends;
    var k: nat :| ConfirmsAt(actions, k, key, id);
    assert actions[..k] + actions[k..] == actions;
    LogsOnlyGrow(actions[..k], actions[k..]);
    SentStaysSent(Execute(actions[..k]).value.db, Execute(actions).value.db, id,
                  FirstEvent(actions, key).value.providerMessageId);
  }

  /** A lookup that found something found a delivery with the report's message id on a recorded send. */
  lemma FindingMeansSent(actions: seq<Action>, key: ReplayKey) returns (k: nat, id: DeliveryId)
    requires Execute(actions).Some? && Happened(actions, key, Finding)
    ensures k < |actions| && Execute(actions[..k]).Some? && FirstEvent(actions, key).Some?
    ensures var db := Execute(actions[..k]).value.db;
            && Finds(db, FirstEvent(actions, key).value.providerMessageId, id)
            && id in db.rows && db.rows[id].status in {Sent, Delivered}
  {
    hide Execute, Inv, Perform, FirstEvent, Finds, GateOpen;
    k :| k < |actions| && Execute(actions[..k]).Some? &&
         StepFor(Execute(actions[..k]).value, actions[k], key) == Some(Finding);
    PrefixRuns(actions, k);
    var s, t := Execute(actions[..k]).value, actions[k].t;
    HandlersCarryTheFirst(actions[..k], key, t);
    FirstStaysFirst(actions, k, key);
    id := actions[k].id;
    ReachableInv(actions[..k]);
    FoundStatus(s, s.threads[t].event.providerMessageId, id);
  }

  lemma FoundStatus(s: State, message: string, id: DeliveryId)
    requires Inv(s) && Finds(s.db, message, id)
    ensures id in s.db.rows && s.db.rows[id].status in {Sent, Delivered}
  {
    hide Inv, Consistent, Gated, PlanInv, MatcherInv, WorkerInv, HandlerInv, Finds;
    InvParts(s);
    ProtocolDispatch.FoundIsSentOrDelivered(s.db, message, id);
  }

  // ---- A report whose handler is gone ----

  lemma {:induction false} GoneForGood(actions: seq<Action>, more: seq<Action>, key: ReplayKey)
    requires Execute(actions).Some? && Execute(actions + more).Some?
    requires key in ArrivedKeys(actions) && !InFlight(Execute(actions).value, key)
    ensures !InFlight(Execute(actions + more).value, key)
    ensures forall what :: Happened(actions + more, key, what) <==> Happened(actions, key, what)
    decreases |more|
  {
    hide Execute, Inv, Enabled, Perform, IsWaiting, IsApplying, Happened, StepFor, OneHandlerEach, ArrivedKeys;
    if |more| == 0 {
      assert actions + more == actions;
    } else {
      var front, last := more[..|more| - 1], more[|more| - 1];
      ExecuteSnoc(actions, more);
      assert (actions + more)[..|actions + more| - 1] == actions + front;
      GoneForGood(actions, front, key);
      var s := Execute(actions + front).value;
      EveryHandlersStory(actions + front, key);
      ReplayIsArrivedKeys(actions + front);
      ArrivedStays(actions, front, key);
      HandlerStepMoves(s, last, key);
      forall what ensures Happened(actions + more, key, what) <==> Happened(actions + front, key, what) {
        HappenedSnoc(actions + more, key, what);
      }
    }
  }

  lemma {:induction false} ArrivedStays(actions: seq<Action>, more: seq<Action>, key: ReplayKey)
    requires key in ArrivedKeys(actions)
    ensures key in ArrivedKeys(actions + more)
  {
    if |more| == 0 {
      assert actions + more == actions;
    } else {
      assert (actions + more)[..|actions + more| - 1] == actions + more[..|more| - 1];
      ArrivedStays(actions, more[..|more| - 1], key);
    }
  }
}
