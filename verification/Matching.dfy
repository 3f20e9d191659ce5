/** The matching worker: claim new-alert events, plan each, persist the plan, publish the event;
    with a database fault possible at every round trip. */
module Matching {
  import opened Prelude
  import opened Identifiers
  import opened Alerts
  import opened Subscriptions
  import opened Deliveries
  import opened Planning
  import opened Database
  import opened Protocol
  import opened Repository
  import opened Connections

  /** What the worker reads: alerts by id, all subscriptions, and the contact preferences. */
  datatype Directory = Directory(
    alerts: map<AlertId, Alert>, subscriptions: seq<Subscription>, preferences: Preferences)

  ghost predicate SoundDirectory(directory: Directory) {
    && ValidPreferences(directory.preferences)
    && forall a :: a in directory.alerts ==> directory.alerts[a].id == a
  }

  /** The plan for one event; an event whose alert is missing is skipped with nothing planned. */
  function PlanFor(lower: string -> string, directory: Directory, a: AlertId): seq<DeliveryPlan> {
    if a !in directory.alerts then []
    else Pipeline(lower, directory.alerts[a], directory.subscriptions, directory.preferences)
  }

  /** Whom an alert is for: consumers with a subscription that accepts it, at each endpoint they are contacted at. */
  ghost predicate IsMeantFor(
    lower: string -> string, directory: Directory, a: AlertId, consumer: ConsumerId, endpoint: ChannelEndpoint)
  {
    && a in directory.alerts
    && (exists i ::
          && 0 <= i < |directory.subscriptions| && directory.subscriptions[i].consumerId == consumer
          && AllRulesHold(lower, directory.subscriptions[i], directory.alerts[a]))
    && consumer in directory.preferences
    && endpoint in directory.preferences[consumer].channels
  }

  lemma PlannedIffMeant(
    lower: string -> string, directory: Directory, a: AlertId, consumer: ConsumerId, endpoint: ChannelEndpoint)
    ensures Plans(PlanFor(lower, directory, a), consumer, endpoint) <==>
            IsMeantFor(lower, directory, a, consumer, endpoint)
  {
    hide Pipeline, AllRulesHold;
    if a in directory.alerts {
      PipelineExact(lower, directory.alerts[a], directory.subscriptions, directory.preferences, consumer, endpoint);
    }
  }

  /** Persisting a plan entry by entry, skipping one whose key is already on record. */
  function Persisted(existing: seq<DeliveryPlan>, plan: seq<DeliveryPlan>): seq<DeliveryPlan> {
    if |plan| == 0 then existing
    else
      var before, p := Persisted(existing, plan[..|plan| - 1]), plan[|plan| - 1];
      if exists q :: q in before && IdempotencyKey(q) == IdempotencyKey(p) then before else before + [p]
  }

  /** No entry on record, of other alerts or earlier in the plan, has the key of the plan's n-th. */
  lemma NextKeyIsFree(
    existing: seq<DeliveryPlan>, a: AlertId, preferences: Preferences, plan: seq<DeliveryPlan>, n: nat, q: DeliveryPlan)
    requires WellFormedPlan(a, preferences, plan) && n < |plan|
    requires forall p :: p in existing ==> p.alertId != a
    requires q in existing + plan[..n]
    ensures IdempotencyKey(q) != IdempotencyKey(plan[n])
  {
    hide IdempotencyKey, InOrder;
    KeyDeterminesEndpoint(q, plan[n]);
    if q in plan[..n] {
      var i :| 0 <= i < n && plan[i] == q;
      PlanKeysDistinct(a, preferences, plan, i, n);
    }
  }

  /** Planning an alert for the first time persists its whole plan: no entry is skipped. */
  lemma {:induction false} FirstPlanIsKept(
    existing: seq<DeliveryPlan>, a: AlertId, preferences: Preferences, plan: seq<DeliveryPlan>, n: nat)
    requires WellFormedPlan(a, preferences, plan) && n <= |plan|
    requires forall q :: q in existing ==> q.alertId != a
    ensures Persisted(existing, plan[..n]) == existing + plan[..n]
  {
    hide IdempotencyKey, WellFormedPlan;
    if n > 0 {
      FirstPlanIsKept(existing, a, preferences, plan, n - 1);
      assert plan[..n][..n - 1] == plan[..n - 1];
      forall q | q in existing + plan[..n - 1] ensures IdempotencyKey(q) != IdempotencyKey(plan[n - 1]) {
        NextKeyIsFree(existing, a, preferences, plan, n - 1, q);
      }
    }
  }

  /** Planning again what is on record adds nothing. */
  lemma {:induction false} ReplanningAddsNothing(existing: seq<DeliveryPlan>, plan: seq<DeliveryPlan>)
    requires forall p :: p in plan ==> exists q :: q in existing && IdempotencyKey(q) == IdempotencyKey(p)
    ensures Persisted(existing, plan) == existing
  {
    if |plan| > 0 {
      var front := plan[..|plan| - 1];
      forall p | p in front ensures p in plan {
      }
      ReplanningAddsNothing(existing, front);
      assert plan[|plan| - 1] in plan;
    }
  }

  lemma PersistedSnoc(existing: seq<DeliveryPlan>, plan: seq<DeliveryPlan>, n: nat)
    requires n < |plan|
    ensures var before := Persisted(existing, plan[..n]);
            Persisted(existing, plan[..n + 1]) ==
              if exists q :: q in before && IdempotencyKey(q) == IdempotencyKey(plan[n])
              then before else before + [plan[n]]
  {
    assert plan[..n + 1][..n] == plan[..n];
  }

  lemma KeyTakenIffPlanned(repository: DeliveryRepository, p: DeliveryPlan)
    requires repository.Valid()
    ensures KeyTaken(repository.Tables(), p) <==>
            exists q :: q in repository.Plans() && IdempotencyKey(q) == IdempotencyKey(p)
  {
    hide Consistent;
    if e :| e in repository.rows && IdempotencyKey(repository.rows[e].plan) == IdempotencyKey(p) {
      var i :| 0 <= i < |repository.created| && repository.created[i] == e;
      assert repository.Plans()[i] == repository.rows[e].plan;
      assert repository.rows[e].plan in repository.Plans();
    }
    if q :| q in repository.Plans() && IdempotencyKey(q) == IdempotencyKey(p) {
      var i :| 0 <= i < |repository.Plans()| && repository.Plans()[i] == q;
      assert repository.created[i] in repository.created;
    }
  }

  /** One transaction per planned delivery: a fault leaves a prefix of the plan persisted. */
  method CreatePlanned(connection: Connection, repository: DeliveryRepository, planned: seq<DeliveryPlan>)
    returns (ok: bool, ghost done: nat)
    requires repository.Valid() && forall p :: p in planned ==> p.maxAttempts > 0
    modifies connection, repository
    ensures repository.Valid()
    ensures done <= |planned| && (ok ==> done == |planned|)
    ensures repository.Plans() == Persisted(old(repository.Plans()), planned[..done])
  {
    ghost var before := repository.Plans();
    done := 0;
    for n := 0 to |planned|
      invariant repository.Valid() && done == n
      invariant repository.Plans() == Persisted(before, planned[..n])
    {
      ok := connection.RoundTrip();
      if !ok {
        return;
      }
      hide Consistent, Distinct;
      PersistedSnoc(before, planned, n);
      KeyTakenIffPlanned(repository, planned[n]);
      var inserted := repository.Create(planned[n]);
      done := n + 1;
    }
    ok := true;
  }

  // ---- Reading preferences ----

  /** The loop that looks each matched consumer's preference up, one round trip each. */
  method ReadPreferences(connection: Connection, directory: Directory, matches: seq<ConsumerMatch>)
    returns (ok: bool, preferences: Preferences)
    modifies connection
    ensures ok ==> forall m :: m in matches ==> AgreeOn(preferences, directory.preferences, m.consumerId)
    ensures ok ==> forall c :: c in preferences ==> IsMatched(matches, c)
  {
    preferences := map[];
    for n := 0 to |matches|
      invariant forall c :: c in preferences ==>
                  IsMatched(matches, c) && c in directory.preferences && preferences[c] == directory.preferences[c]
      invariant forall i :: 0 <= i < n ==> AgreeOn(preferences, directory.preferences, matches[i].consumerId)
    {
      ok := connection.RoundTrip();
      if !ok {
        return;
      }
      var consumer := matches[n].consumerId;
      if consumer in directory.preferences {
        preferences := preferences[consumer := directory.preferences[consumer]];
      }
    }
    ok := true;
  }

  predicate IsMatched(matches: seq<ConsumerMatch>, consumer: ConsumerId) {
    exists m :: m in matches && m.consumerId == consumer
  }

  predicate AgreeOn(some: Preferences, all: Preferences, consumer: ConsumerId) {
    (consumer in some <==> consumer in all) && (consumer in some ==> some[consumer] == all[consumer])
  }

  lemma {:induction false} OnlyMatchedPreferencesMatter(
    a: AlertId, matches: seq<ConsumerMatch>, some: Preferences, all: Preferences, attempts: nat)
    requires forall m :: m in matches ==> AgreeOn(some, all, m.consumerId)
    ensures PlanAll(a, matches, some, attempts) == PlanAll(a, matches, all, attempts)
  {
    if |matches| > 0 {
      var front, last := matches[..|matches| - 1], matches[|matches| - 1];
      forall m | m in front ensures m in matches {
      }
      OnlyMatchedPreferencesMatter(a, front, some, all, attempts);
      assert last in matches;
      assert PlanConsumer(a, last, some, attempts) == PlanConsumer(a, last, all, attempts);
    }
  }

  lemma PlanIsUsable(lower: string -> string, directory: Directory, a: AlertId)
    requires SoundDirectory(directory)
    ensures WellFormedPlan(a, directory.preferences, PlanFor(lower, directory, a))
    ensures forall p :: p in PlanFor(lower, directory, a) ==> p.maxAttempts > 0
  {
    hide Pipeline;
    if a in directory.alerts {
      PipelineWellFormed(lower, directory.alerts[a], directory.subscriptions, directory.preferences);
    }
  }

  /** Match and plan one alert. */
  method MatchAndPlan(
    connection: Connection, lower: string -> string, directory: Directory, repository: DeliveryRepository, a: AlertId)
    returns (ok: bool, ghost done: nat)
    requires repository.Valid() && SoundDirectory(directory)
    modifies connection, repository
    ensures repository.Valid()
    ensures done <= |PlanFor(lower, directory, a)| && (ok ==> done == |PlanFor(lower, directory, a)|)
    ensures repository.Plans() == Persisted(old(repository.Plans()), PlanFor(lower, directory, a)[..done])
  {
    hide Consistent, Distinct;
    ghost var plan := PlanFor(lower, directory, a);
    PlanIsUsable(lower, directory, a);
    done := 0;
    ok := connection.RoundTrip();
    if !ok || a !in directory.alerts {
      return;
    }
    var alert := directory.alerts[a];
    ok := connection.RoundTrip();
    if !ok {
      return;
    }
    var decisions := EvaluateAll(lower, directory.subscriptions, alert);
    var matches := DeduplicateByConsumer(decisions);
    if |matches| == 0 {
      return;
    }
    var preferences: Preferences;
    ok, preferences := ReadPreferences(connection, directory, matches);
    if !ok {
      return;
    }
    OnlyMatchedPreferencesMatter(a, matches, preferences, directory.preferences, STANDARD_ATTEMPTS);
    var planned := PlanDeliveries(a, matches, preferences, STANDARD_ATTEMPTS);
    ok, done := CreatePlanned(connection, repository, planned);
  }

  // ---- The outbox ----

  function UnclaimedOf(events: seq<AlertId>, status: map<AlertId, OutboxStatus>): (pending: seq<AlertId>)
    ensures forall a :: a in pending <==> a in events && a in status && status[a] == Unclaimed
    ensures Distinct(events) ==> Distinct(pending)
  {
    if |events| == 0 then []
    else
      var front, last := events[..|events| - 1], events[|events| - 1];
      assert events == front + [last];
      if last in status && status[last] == Unclaimed then UnclaimedOf(front, status) + [last]
      else UnclaimedOf(front, status)
  }

  /** Of two unclaimed events the older one comes first. */
  lemma {:induction false} UnclaimedInOrder(
    events: seq<AlertId>, status: map<AlertId, OutboxStatus>, i: nat, j: nat, q: nat) returns (p: nat)
    requires Distinct(events) && i < j < |events| && events[i] in status && status[events[i]] == Unclaimed
    requires q < |UnclaimedOf(events, status)| && UnclaimedOf(events, status)[q] == events[j]
    ensures p < q && UnclaimedOf(events, status)[p] == events[i]
  {
    var front, last := events[..|events| - 1], events[|events| - 1];
    var before := UnclaimedOf(front, status);
    assert events == front + [last];
    if j < |front| {
      assert events[j] != last;
      p := UnclaimedInOrder(front, status, i, j, q);
    } else {
      assert forall x :: x in before ==> x in front;
      assert front[i] in front;
      p :| 0 <= p < |before| && before[p] == events[i];
    }
  }

  /** A batch takes the oldest unclaimed events, in order, up to the limit. */
  ghost predicate TakesOldest(
    events: seq<AlertId>, status: map<AlertId, OutboxStatus>, limit: nat, batch: seq<AlertId>)
  {
    && |batch| <= limit
    && (forall n :: 0 <= n < |batch| ==>
          batch[n] in events && batch[n] in status && status[batch[n]] == Unclaimed)
    && (forall n, i, j ::
          && 0 <= n < |batch| && 0 <= i < j < |events| && events[j] == batch[n]
          && events[i] in status && status[events[i]] == Unclaimed
          ==> events[i] in batch[..n])
    && (|batch| < limit ==>
          forall a :: a in events && a in status && status[a] == Unclaimed ==> a in batch)
  }

  lemma ClaimTakesOldest(events: seq<AlertId>, status: map<AlertId, OutboxStatus>, limit: nat)
    requires Distinct(events)
    ensures TakesOldest(events, status, limit, Page(UnclaimedOf(events, status), limit, 0))
  {
    var pending := UnclaimedOf(events, status);
    var batch := Page(pending, limit, 0);
    assert batch == pending[..|batch|];
    forall n | 0 <= n < |batch| ensures batch[n] in events && batch[n] in status && status[batch[n]] == Unclaimed {
      assert pending[n] in pending;
    }
    forall n, i, j |
      && 0 <= n < |batch| && 0 <= i < j < |events| && events[j] == batch[n]
      && events[i] in status && status[events[i]] == Unclaimed
      ensures events[i] in batch[..n]
    {
      var p := UnclaimedInOrder(events, status, i, j, n);
      assert batch[..n][p] == events[i];
    }
    if |batch| < limit {
      assert batch == pending;
    }
  }

  /** The first `n` events published, the rest of the batch claimed, all other events as they were. */
  ghost predicate PublishedPrefix(
    before: map<AlertId, OutboxStatus>, after: map<AlertId, OutboxStatus>, batch: seq<AlertId>, n: nat)
    requires n <= |batch|
  {
    && after.Keys == before.Keys + (set a | a in batch)
    && (forall a :: a in before && a !in batch ==> after[a] == before[a])
    && (forall i :: 0 <= i < |batch| ==> after[batch[i]] == if i < n then Published else Claimed)
  }

  lemma NothingPublished(before: map<AlertId, OutboxStatus>, batch: seq<AlertId>)
    requires forall a :: a in batch ==> a in before
    ensures PublishedPrefix(before, before + map a | a in batch :: Claimed, batch, 0)
  {
    forall i | 0 <= i < |batch| ensures batch[i] in batch {
    }
  }

  lemma NothingClaimed(status: map<AlertId, OutboxStatus>)
    ensures PublishedPrefix(status, status, [], 0)
  {
  }

  /** `new-alert` events in creation order; each is unclaimed, then claimed, then published. */
  class Outbox {
    var events: seq<AlertId>
    var status: map<AlertId, OutboxStatus>

    ghost predicate Valid()
      reads this
    {
      Distinct(events) && forall a :: a in status <==> a in events
    }

    /** Marks up to `limit` unclaimed events claimed, oldest first, and no other event; none is published yet. */
    method ClaimUnpublished(limit: nat) returns (batch: seq<AlertId>)
      requires Valid()
      modifies this`status
      ensures Valid()
      ensures batch == Page(UnclaimedOf(events, old(status)), limit, 0)
      ensures Distinct(batch)
      ensures TakesOldest(events, old(status), limit, batch)
      ensures PublishedPrefix(old(status), status, batch, 0)
    {
      ClaimTakesOldest(events, status, limit);
      var pending := UnclaimedOf(events, status);
      batch := Page(pending, limit, 0);
      assert forall a :: a in batch ==> a in pending;
      NothingPublished(status, batch);
      status := status + map a | a in batch :: Claimed;
    }

    method MarkPublished(a: AlertId)
      requires Valid() && a in events
      modifies this`status
      ensures Valid() && status == old(status)[a := Published]
    {
      status := status[a := Published];
    }
  }

  /** The plans of a run of events, one after another. */
  function PlansFor(lower: string -> string, directory: Directory, batch: seq<AlertId>): seq<DeliveryPlan> {
    if |batch| == 0 then []
    else PlansFor(lower, directory, batch[..|batch| - 1]) + PlanFor(lower, directory, batch[|batch| - 1])
  }

  lemma {:induction false} PersistedConcat(
    existing: seq<DeliveryPlan>, first: seq<DeliveryPlan>, second: seq<DeliveryPlan>)
    ensures Persisted(existing, first + second) == Persisted(Persisted(existing, first), second)
  {
    if |second| == 0 {
      assert first + second == first;
    } else {
      assert (first + second)[..|first + second| - 1] == first + second[..|second| - 1];
      PersistedConcat(existing, first, second[..|second| - 1]);
    }
  }

  lemma PublishNext(
    before: map<AlertId, OutboxStatus>, after: map<AlertId, OutboxStatus>, batch: seq<AlertId>, n: nat)
    requires n < |batch| && Distinct(batch) && PublishedPrefix(before, after, batch, n)
    ensures PublishedPrefix(before, after[batch[n] := Published], batch, n + 1)
  {
    assert batch[n] in batch;
  }

  lemma PlansForSnoc(lower: string -> string, directory: Directory, batch: seq<AlertId>, n: nat)
    requires n < |batch|
    ensures PlansFor(lower, directory, batch[..n + 1]) ==
            PlansFor(lower, directory, batch[..n]) + PlanFor(lower, directory, batch[n])
  {
    assert batch[..n + 1][..n] == batch[..n];
  }

  /** What the first `n` events of a batch, and `done` entries of the next one's plan, persist. */
  ghost function PlannedSoFar(
    lower: string -> string, directory: Directory, batch: seq<AlertId>, n: nat, done: nat): seq<DeliveryPlan>
    requires n <= |batch|
  {
    var next := if n < |batch| then PlanFor(lower, directory, batch[n]) else [];
    PlansFor(lower, directory, batch[..n]) + if done <= |next| then next[..done] else next
  }

  lemma NothingPlanned(lower: string -> string, directory: Directory, batch: seq<AlertId>, existing: seq<DeliveryPlan>)
    ensures Persisted(existing, PlannedSoFar(lower, directory, batch, 0, 0)) == existing
  {
  }

  lemma PlannedFurther(
    lower: string -> string, directory: Directory, batch: seq<AlertId>, n: nat, done: nat, existing: seq<DeliveryPlan>)
    requires n < |batch| && done <= |PlanFor(lower, directory, batch[n])|
    ensures Persisted(existing, PlannedSoFar(lower, directory, batch, n, done)) ==
            Persisted(Persisted(existing, PlannedSoFar(lower, directory, batch, n, 0)),
                      PlanFor(lower, directory, batch[n])[..done])
    ensures done == |PlanFor(lower, directory, batch[n])| ==>
              PlannedSoFar(lower, directory, batch, n, done) == PlannedSoFar(lower, directory, batch, n + 1, 0)
  {
    var mine := PlanFor(lower, directory, batch[n]);
    PersistedConcat(existing, PlansFor(lower, directory, batch[..n]), mine[..done]);
    assert PlannedSoFar(lower, directory, batch, n, 0) == PlansFor(lower, directory, batch[..n]);
    PlansForSnoc(lower, directory, batch, n);
    if done == |mine| {
      assert mine[..done] == mine;
      assert PlannedSoFar(lower, directory, batch, n + 1, 0) == PlansFor(lower, directory, batch[..n + 1]);
    }
  }

  lemma PlansNameTheirAlert(lower: string -> string, directory: Directory, batch: seq<AlertId>, p: DeliveryPlan)
    requires SoundDirectory(directory) && p in PlansFor(lower, directory, batch)
    ensures p.alertId in batch
  {
    hide PlanFor, SoundDirectory;
    if |batch| > 0 {
      var front, last := batch[..|batch| - 1], batch[|batch| - 1];
      PlanIsUsable(lower, directory, last);
      if p in PlansFor(lower, directory, front) {
        PlansNameTheirAlert(lower, directory, front, p);
      }
    }
  }

  /** Events planned for the first time are planned in full: no entry of the first `n` plans is skipped, nor any of
      the `done` entries of the next one. */
  lemma {:induction false} BatchPlansAreKept(
    lower: string -> string, directory: Directory, batch: seq<AlertId>, n: nat, done: nat, existing: seq<DeliveryPlan>)
    requires SoundDirectory(directory) && Distinct(batch) && n <= |batch|
    requires n < |batch| ==> done <= |PlanFor(lower, directory, batch[n])|
    requires n == |batch| ==> done == 0
    requires NewToTheTables(existing, batch)
    ensures Persisted(existing, PlannedSoFar(lower, directory, batch, n, done)) ==
            existing + PlannedSoFar(lower, directory, batch, n, done)
    decreases n, done
  {
    hide PlanFor, SoundDirectory, Persisted, PlansFor, Distinct;
    if done > 0 {
      BatchPlansAreKept(lower, directory, batch, n, 0, existing);
      NextPlanIsKept(lower, directory, batch, n, done, existing);
    } else if n > 0 {
      var whole := |PlanFor(lower, directory, batch[n - 1])|;
      BatchPlansAreKept(lower, directory, batch, n - 1, 0, existing);
      NextPlanIsKept(lower, directory, batch, n - 1, whole, existing);
      PlannedFurther(lower, directory, batch, n - 1, whole, existing);
    } else {
      NothingPlanned(lower, directory, batch, existing);
      NoPlansYet(lower, directory, batch);
    }
  }

  ghost predicate NewToTheTables(existing: seq<DeliveryPlan>, batch: seq<AlertId>) {
    forall q :: q in existing ==> q.alertId !in batch
  }

  lemma KeptIfNew(
    lower: string -> string, directory: Directory, batch: seq<AlertId>, n: nat, done: nat, existing: seq<DeliveryPlan>)
    requires SoundDirectory(directory) && Distinct(batch) && n <= |batch|
    requires n < |batch| ==> done <= |PlanFor(lower, directory, batch[n])|
    requires n == |batch| ==> done == 0
    ensures NewToTheTables(existing, batch) ==>
              var plans := Persisted(existing, PlannedSoFar(lower, directory, batch, n, done));
              && plans == existing + PlannedSoFar(lower, directory, batch, n, done)
              && ReachesExactly(lower, directory, batch[..n], plans)
  {
    hide PlanFor, SoundDirectory, Persisted, PlannedSoFar, Distinct, ReachesExactly;
    if NewToTheTables(existing, batch) {
      BatchPlansAreKept(lower, directory, batch, n, done, existing);
      PlannedReachExactly(lower, directory, batch, n, done, existing);
    }
  }

  lemma NoPlansYet(lower: string -> string, directory: Directory, batch: seq<AlertId>)
    ensures PlannedSoFar(lower, directory, batch, 0, 0) == []
  {
  }

  lemma NextPlanIsKept(
    lower: string -> string, directory: Directory, batch: seq<AlertId>, n: nat, done: nat, existing: seq<DeliveryPlan>)
    requires SoundDirectory(directory) && Distinct(batch) && n < |batch|
    requires done <= |PlanFor(lower, directory, batch[n])|
    requires NewToTheTables(existing, batch)
    requires Persisted(existing, PlannedSoFar(lower, directory, batch, n, 0)) ==
             existing + PlannedSoFar(lower, directory, batch, n, 0)
    ensures Persisted(existing, PlannedSoFar(lower, directory, batch, n, done)) ==
            existing + PlannedSoFar(lower, directory, batch, n, done)
  {
    hide PlanFor, SoundDirectory, Persisted, PlansFor;
    var a := batch[n];
    var before := existing + PlannedSoFar(lower, directory, batch, n, 0);
    var mine := PlanFor(lower, directory, a)[..done];
    forall q | q in before ensures q.alertId != a {
      if q in existing {
        assert a in batch;
      } else {
        PlansNameTheirAlert(lower, directory, batch[..n], q);
      }
    }
    PlanIsUsable(lower, directory, a);
    PlannedFurther(lower, directory, batch, n, done, existing);
    FirstPlanIsKept(before, a, directory.preferences, PlanFor(lower, directory, a), done);
    assert PlannedSoFar(lower, directory, batch, n, done) == PlannedSoFar(lower, directory, batch, n, 0) + mine;
  }

  /** Each of the events has exactly the deliveries it is meant to have. */
  ghost predicate ReachesExactly(
    lower: string -> string, directory: Directory, events: seq<AlertId>, plans: seq<DeliveryPlan>)
  {
    forall a, consumer, endpoint :: a in events ==>
      (HasDelivery(plans, a, consumer, endpoint) <==> IsMeantFor(lower, directory, a, consumer, endpoint))
  }

  ghost predicate HasDelivery(plans: seq<DeliveryPlan>, a: AlertId, consumer: ConsumerId, endpoint: ChannelEndpoint) {
    exists p :: p in plans && p.alertId == a && p.consumerId == consumer
                && p.channel == endpoint.channel && p.address == endpoint.address
  }

  lemma {:induction false} PlansForMembers(
    lower: string -> string, directory: Directory, batch: seq<AlertId>, p: DeliveryPlan)
    requires SoundDirectory(directory)
    ensures p in PlansFor(lower, directory, batch) <==>
            p.alertId in batch && p in PlanFor(lower, directory, p.alertId)
  {
    hide PlanFor, SoundDirectory;
    if |batch| > 0 {
      var front, last := batch[..|batch| - 1], batch[|batch| - 1];
      PlansForMembers(lower, directory, front, p);
      PlanIsUsable(lower, directory, last);
      assert batch == front + [last];
    }
  }

  /** Once planned in full, an event has a delivery for exactly the consumers and endpoints it is meant for. */
  lemma PlannedReachExactly(
    lower: string -> string, directory: Directory, batch: seq<AlertId>, n: nat, done: nat, existing: seq<DeliveryPlan>)
    requires SoundDirectory(directory) && Distinct(batch) && n <= |batch| && NewToTheTables(existing, batch)
    ensures ReachesExactly(lower, directory, batch[..n], existing + PlannedSoFar(lower, directory, batch, n, done))
  {
    hide PlanFor, SoundDirectory, IsMeantFor, PlansFor;
    var plans := existing + PlannedSoFar(lower, directory, batch, n, done);
    forall a, consumer, endpoint | a in batch[..n]
      ensures HasDelivery(plans, a, consumer, endpoint) <==> IsMeantFor(lower, directory, a, consumer, endpoint)
    {
      var mine := PlanFor(lower, directory, a);
      PlanIsUsable(lower, directory, a);
      PlannedIffMeant(lower, directory, a, consumer, endpoint);
      forall p: DeliveryPlan | p.alertId == a ensures p in plans <==> p in mine {
        PlansForMembers(lower, directory, batch[..n], p);
        if n < |batch| {
          PlanIsUsable(lower, directory, batch[n]);
        }
      }
      if Plans(mine, consumer, endpoint) {
        var i :| 0 <= i < |mine| && mine[i].consumerId == consumer
              && mine[i].channel == endpoint.channel && mine[i].address == endpoint.address;
        assert mine[i] in plans;
      }
    }
  }

  lemma NothingIsDistinct(batch: seq<AlertId>)
    requires batch == []
    ensures Distinct(batch)
  {
  }

  lemma ClaimedAreKnown(events: seq<AlertId>, status: map<AlertId, OutboxStatus>, limit: nat)
    ensures forall a :: a in Page(UnclaimedOf(events, status), limit, 0) ==> a in events && a in status
  {
    var pending := UnclaimedOf(events, status);
    assert forall a :: a in Page(pending, limit, 0) ==> a in pending;
  }

  /** Plans one claimed event and, only if that succeeded, publishes it. */
  method PlanThenPublish(
    connection: Connection, outbox: Outbox, lower: string -> string, directory: Directory,
    repository: DeliveryRepository, a: AlertId)
    returns (published: bool, ghost done: nat)
    requires outbox.Valid() && repository.Valid() && SoundDirectory(directory) && a in outbox.events
    modifies connection, outbox`status, repository
    ensures outbox.Valid() && repository.Valid()
    ensures done <= |PlanFor(lower, directory, a)|
    ensures repository.Plans() == Persisted(old(repository.Plans()), PlanFor(lower, directory, a)[..done])
    ensures published ==> done == |PlanFor(lower, directory, a)|
    ensures outbox.status == if published then old(outbox.status)[a := Published] else old(outbox.status)
  {
    hide Consistent, Distinct, PlanFor, SoundDirectory, Persisted;
    published, done := MatchAndPlan(connection, lower, directory, repository, a);
    if published {
      published := connection.RoundTrip();
      if published {
        outbox.MarkPublished(a);
      }
    }
  }

  /** One matching cycle. Wherever it stops, the events it published are a prefix of its batch, planned in
      full: each has a delivery for exactly the consumers and endpoints it is meant for. The next one may have been
      planned in part or in full; nothing after it has been touched. */
  method ProcessBatch(
    connection: Connection, outbox: Outbox, lower: string -> string, directory: Directory,
    repository: DeliveryRepository, batchSize: nat)
    returns (count: Option<nat>, ghost batch: seq<AlertId>, ghost n: nat, ghost done: nat)
    requires outbox.Valid() && repository.Valid() && SoundDirectory(directory)
    modifies connection, outbox`status, repository
    ensures outbox.Valid() && repository.Valid()
    ensures batch == [] || batch == Page(UnclaimedOf(outbox.events, old(outbox.status)), batchSize, 0)
    ensures n <= |batch| && PublishedPrefix(old(outbox.status), outbox.status, batch, n)
    ensures batch == [] || TakesOldest(outbox.events, old(outbox.status), batchSize, batch)
    ensures count.Some? ==>
              && count == Some(n) && n == |batch|
              && batch == Page(UnclaimedOf(outbox.events, old(outbox.status)), batchSize, 0)
    ensures n < |batch| ==> done <= |PlanFor(lower, directory, batch[n])|
    ensures repository.Plans() ==
            Persisted(old(repository.Plans()), PlannedSoFar(lower, directory, batch, n, done))
    ensures NewToTheTables(old(repository.Plans()), batch) ==>
              && repository.Plans() == old(repository.Plans()) + PlannedSoFar(lower, directory, batch, n, done)
              && ReachesExactly(lower, directory, batch[..n], repository.Plans())
  {
    hide Consistent, PlanFor, SoundDirectory, Distinct, Page, UnclaimedOf, Persisted, PublishedPrefix, PlannedSoFar,
      NewToTheTables, ReachesExactly, TakesOldest;
    batch, n, done, count := [], 0, 0, None;
    ghost var plansBefore, statusBefore := repository.Plans(), outbox.status;
    var ok := connection.RoundTrip();
    if !ok {
      NothingPlanned(lower, directory, batch, plansBefore);
      NothingClaimed(statusBefore);
      NothingIsDistinct(batch);
      KeptIfNew(lower, directory, batch, n, done, plansBefore);
      return;
    }
    ClaimedAreKnown(outbox.events, outbox.status, batchSize);
    var claimed := outbox.ClaimUnpublished(batchSize);
    batch := claimed;
    NothingPlanned(lower, directory, batch, plansBefore);
    for i := 0 to |claimed|
      invariant n == i && done == 0 && batch == claimed
      invariant outbox.Valid() && repository.Valid()
      invariant PublishedPrefix(statusBefore, outbox.status, batch, n)
      invariant repository.Plans() == Persisted(plansBefore, PlannedSoFar(lower, directory, batch, n, 0))
    {
      assert claimed[i] in claimed;
      ghost var statusNow := outbox.status;
      ok, done := PlanThenPublish(connection, outbox, lower, directory, repository, claimed[i]);
      PlannedFurther(lower, directory, batch, n, done, plansBefore);
      if !ok {
        KeptIfNew(lower, directory, batch, n, done, plansBefore);
        return;
      }
      PublishNext(statusBefore, statusNow, batch, n);
      n, done := n + 1, 0;
    }
    KeptIfNew(lower, directory, batch, n, done, plansBefore);
    count := Some(|claimed|);
  }
}
