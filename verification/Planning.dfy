/** From an alert and the subscriptions to the deliveries that will carry it. */
module Planning {
  import opened Prelude
  import opened Identifiers
  import opened Alerts
  import opened Subscriptions
  import opened Deliveries

  /** The attempts a delivery gets under the standard retry policy. */
  const STANDARD_ATTEMPTS: nat := 5

  type Preferences = map<ConsumerId, DeliveryPreference>

  ghost predicate ValidPreferences(preferences: Preferences) {
    forall c :: c in preferences ==> ValidPreference(preferences[c])
  }

  function PlanOne(
    alertId: AlertId, m: ConsumerMatch, preference: DeliveryPreference, index: nat, attempts: nat): DeliveryPlan
    requires index < |preference.channels|
  {
    var endpoint := preference.channels[index];
    DeliveryPlan(alertId, m.consumerId, endpoint.channel, endpoint.address,
                 TierOf(preference.strategy, index), m.subscriptions, attempts)
  }

  /** The deliveries for one matched consumer, one per configured endpoint, in order. */
  function PlanConsumer(
    alertId: AlertId, m: ConsumerMatch, preferences: Preferences, attempts: nat): seq<DeliveryPlan>
  {
    if m.consumerId !in preferences then []
    else
      var preference := preferences[m.consumerId];
      seq(|preference.channels|, i requires 0 <= i < |preference.channels| =>
          PlanOne(alertId, m, preference, i, attempts))
  }

  function PlanAll(
    alertId: AlertId, matches: seq<ConsumerMatch>, preferences: Preferences, attempts: nat): seq<DeliveryPlan>
  {
    if |matches| == 0 then []
    else
      PlanAll(alertId, matches[..|matches| - 1], preferences, attempts) +
      PlanConsumer(alertId, matches[|matches| - 1], preferences, attempts)
  }

  /** Planning as it runs: a nested loop that skips consumers without a preference. */
  method PlanDeliveries(
    alertId: AlertId, matches: seq<ConsumerMatch>, preferences: Preferences, attempts: nat)
    returns (planned: seq<DeliveryPlan>)
    ensures planned == PlanAll(alertId, matches, preferences, attempts)
  {
    planned := [];
    for n := 0 to |matches|
      invariant planned == PlanAll(alertId, matches[..n], preferences, attempts)
    {
      assert matches[..n + 1][..n] == matches[..n];
      var m := matches[n];
      if m.consumerId in preferences {
        ghost var before := planned;
        var preference := preferences[m.consumerId];
        for i := 0 to |preference.channels|
          invariant planned == before + PlanConsumer(alertId, m, preferences, attempts)[..i]
        {
          planned := planned + [PlanOne(alertId, m, preference, i, attempts)];
        }
        assert PlanConsumer(alertId, m, preferences, attempts)[..|preference.channels|] ==
               PlanConsumer(alertId, m, preferences, attempts);
      }
    }
    assert matches[..|matches|] == matches;
  }

  // ---- What a plan looks like ----

  ghost predicate ConsumersDistinct(matches: seq<ConsumerMatch>) {
    forall i, j :: 0 <= i < j < |matches| ==> matches[i].consumerId != matches[j].consumerId
  }

  /** Two entries for the same consumer, the first planned earlier: different channels,
      and a strictly later tier unless the consumer's strategy is to use all channels at once. */
  ghost predicate InOrder(preferences: Preferences, earlier: DeliveryPlan, later: DeliveryPlan)
    requires earlier.consumerId in preferences
  {
    && earlier.channel != later.channel
    && if preferences[earlier.consumerId].strategy == All
       then earlier.tier == later.tier == 0
       else earlier.tier < later.tier
  }

  ghost predicate WellFormedPlan(alertId: AlertId, preferences: Preferences, plan: seq<DeliveryPlan>) {
    && (forall i :: 0 <= i < |plan| ==>
          plan[i].alertId == alertId && plan[i].maxAttempts > 0 && plan[i].consumerId in preferences)
    && (forall i, j :: 0 <= i < j < |plan| && plan[i].consumerId == plan[j].consumerId ==>
          InOrder(preferences, plan[i], plan[j]))
  }

  lemma PlanConsumerWellFormed(alertId: AlertId, m: ConsumerMatch, preferences: Preferences, attempts: nat)
    requires ValidPreferences(preferences) && attempts > 0
    ensures WellFormedPlan(alertId, preferences, PlanConsumer(alertId, m, preferences, attempts))
  {
    if m.consumerId in preferences {
      var preference := preferences[m.consumerId];
      var plan := PlanConsumer(alertId, m, preferences, attempts);
      forall i, j | 0 <= i < j < |plan| ensures InOrder(preferences, plan[i], plan[j]) {
        assert ChannelsOf(preference.channels)[i] != ChannelsOf(preference.channels)[j];
        if preference.strategy != All {
          TierIsPosition(preference, i);
          TierIsPosition(preference, j);
        }
      }
    }
  }

  lemma PlannedForMatched(
    alertId: AlertId, matches: seq<ConsumerMatch>, preferences: Preferences, attempts: nat)
    ensures forall p :: p in PlanAll(alertId, matches, preferences, attempts) ==>
              exists m :: m in matches && m.consumerId == p.consumerId
  {
    forall p | p in PlanAll(alertId, matches, preferences, attempts)
      ensures exists m :: m in matches && m.consumerId == p.consumerId
    {
      PlanAllMembers(alertId, matches, preferences, attempts, p);
    }
  }

  lemma JoinedPlans(
    alertId: AlertId, preferences: Preferences, earlier: seq<DeliveryPlan>, mine: seq<DeliveryPlan>)
    requires WellFormedPlan(alertId, preferences, earlier) && WellFormedPlan(alertId, preferences, mine)
    requires forall i, j :: 0 <= i < |earlier| && 0 <= j < |mine| ==> earlier[i].consumerId != mine[j].consumerId
    ensures WellFormedPlan(alertId, preferences, earlier + mine)
  {
    hide InOrder;
  }

  /** Every plan is well formed, provided each consumer was matched once. */
  lemma {:induction false} PlanAllWellFormed(
    alertId: AlertId, matches: seq<ConsumerMatch>, preferences: Preferences, attempts: nat)
    requires ValidPreferences(preferences) && attempts > 0 && ConsumersDistinct(matches)
    ensures WellFormedPlan(alertId, preferences, PlanAll(alertId, matches, preferences, attempts))
  {
    hide WellFormedPlan, InOrder, ValidPreferences, ValidPreference;
    if |matches| > 0 {
      var front, last := matches[..|matches| - 1], matches[|matches| - 1];
      var earlier := PlanAll(alertId, front, preferences, attempts);
      var mine := PlanConsumer(alertId, last, preferences, attempts);
      PlanAllWellFormed(alertId, front, preferences, attempts);
      PlanConsumerWellFormed(alertId, last, preferences, attempts);
      PlannedForMatched(alertId, front, preferences, attempts);
      forall i | 0 <= i < |earlier| ensures earlier[i].consumerId != last.consumerId {
        assert earlier[i] in earlier;
      }
      JoinedPlans(alertId, preferences, earlier, mine);
    } else {
      NoPlan(alertId, preferences);
    }
  }

  lemma NoPlan(alertId: AlertId, preferences: Preferences)
    ensures WellFormedPlan(alertId, preferences, [])
  {
  }

  /** Keys in a plan are pairwise distinct. */
  lemma PlanKeysDistinct(alertId: AlertId, preferences: Preferences, plan: seq<DeliveryPlan>, i: nat, j: nat)
    requires WellFormedPlan(alertId, preferences, plan) && i < j < |plan|
    ensures IdempotencyKey(plan[i]) != IdempotencyKey(plan[j])
  {
    KeyDeterminesEndpoint(plan[i], plan[j]);
  }

  lemma {:induction false} PlanAllMembers(
    alertId: AlertId, matches: seq<ConsumerMatch>, preferences: Preferences, attempts: nat, p: DeliveryPlan)
    ensures p in PlanAll(alertId, matches, preferences, attempts) <==>
            exists m :: m in matches && p in PlanConsumer(alertId, m, preferences, attempts)
  {
    if |matches| > 0 {
      var front, last := matches[..|matches| - 1], matches[|matches| - 1];
      PlanAllMembers(alertId, front, preferences, attempts, p);
      assert forall m :: m in matches <==> m in front || m == last;
    }
  }

  /** In a sequential strategy an entry's tier is where its endpoint stands in the preference. */
  lemma TierNamesTheEndpoint(
    alertId: AlertId, matches: seq<ConsumerMatch>, preferences: Preferences, attempts: nat, p: DeliveryPlan)
    requires ValidPreferences(preferences)
    requires p in PlanAll(alertId, matches, preferences, attempts)
    ensures p.consumerId in preferences
    ensures preferences[p.consumerId].strategy != All ==>
              && p.tier < |preferences[p.consumerId].channels|
              && preferences[p.consumerId].channels[p.tier] == ChannelEndpoint(p.channel, p.address)
  {
    PlanAllMembers(alertId, matches, preferences, attempts, p);
    var m :| m in matches && p in PlanConsumer(alertId, m, preferences, attempts);
    var preference := preferences[m.consumerId];
    var i :| 0 <= i < |preference.channels| && p == PlanOne(alertId, m, preference, i, attempts);
    if preference.strategy != All {
      TierIsPosition(preference, i);
    }
  }

  function ChannelCounts(matches: seq<ConsumerMatch>, preferences: Preferences): seq<nat> {
    Map((m: ConsumerMatch) => if m.consumerId in preferences then |preferences[m.consumerId].channels| else 0, matches)
  }

  lemma {:induction false} PlanLength(
    alertId: AlertId, matches: seq<ConsumerMatch>, preferences: Preferences, attempts: nat)
    ensures |PlanAll(alertId, matches, preferences, attempts)| == Sum(ChannelCounts(matches, preferences))
  {
    if |matches| > 0 {
      var front := matches[..|matches| - 1];
      PlanLength(alertId, front, preferences, attempts);
      assert ChannelCounts(matches, preferences)[..|front|] == ChannelCounts(front, preferences);
    }
  }

  // ---- The whole pipeline ----

  /** Evaluate, group by consumer, plan: what the worker persists for one alert. */
  function Pipeline(
    lower: string -> string, alert: Alert, subscriptions: seq<Subscription>,
    preferences: Preferences): seq<DeliveryPlan>
  {
    PlanAll(alert.id, Grouped(EvaluateAll(lower, subscriptions, alert)), preferences, STANDARD_ATTEMPTS)
  }

  lemma GroupedConsumersDistinct(decisions: seq<MatchDecision>)
    ensures ConsumersDistinct(Grouped(decisions))
  {
    forall i, j | 0 <= i < j < |Grouped(decisions)|
      ensures Grouped(decisions)[i].consumerId != Grouped(decisions)[j].consumerId
    {
      assert Consumers(decisions)[i] != Consumers(decisions)[j];
    }
  }

  lemma PipelineWellFormed(
    lower: string -> string, alert: Alert, subscriptions: seq<Subscription>, preferences: Preferences)
    requires ValidPreferences(preferences)
    ensures WellFormedPlan(alert.id, preferences, Pipeline(lower, alert, subscriptions, preferences))
  {
    var decisions := EvaluateAll(lower, subscriptions, alert);
    GroupedConsumersDistinct(decisions);
    PlanAllWellFormed(alert.id, Grouped(decisions), preferences, STANDARD_ATTEMPTS);
  }

  ghost predicate SomeSubscriptionMatches(
    lower: string -> string, alert: Alert, subscriptions: seq<Subscription>, consumer: ConsumerId)
  {
    exists s :: s in subscriptions && s.consumerId == consumer && AllRulesHold(lower, s, alert)
  }

  lemma MatchedConsumers(lower: string -> string, alert: Alert, subscriptions: seq<Subscription>, consumer: ConsumerId)
    ensures consumer in Consumers(EvaluateAll(lower, subscriptions, alert)) <==>
            SomeSubscriptionMatches(lower, alert, subscriptions, consumer)
  {
    var decisions := EvaluateAll(lower, subscriptions, alert);
    forall i | 0 <= i < |subscriptions|
      ensures decisions[i].matched <==> AllRulesHold(lower, subscriptions[i], alert)
      ensures decisions[i].consumerId == subscriptions[i].consumerId
    {
      MatchedIffAllRulesHold(lower, subscriptions[i], alert);
    }
    if s :| s in subscriptions && s.consumerId == consumer && AllRulesHold(lower, s, alert) {
      var i :| 0 <= i < |subscriptions| && subscriptions[i] == s;
      assert decisions[i].matched && decisions[i].consumerId == consumer;
    }
  }

  ghost predicate Plans(plan: seq<DeliveryPlan>, consumer: ConsumerId, endpoint: ChannelEndpoint) {
    exists i :: 0 <= i < |plan| && plan[i].consumerId == consumer
             && plan[i].channel == endpoint.channel && plan[i].address == endpoint.address
  }

  lemma PlannedMeansMatched(
    lower: string -> string, alert: Alert, subscriptions: seq<Subscription>, preferences: Preferences,
    consumer: ConsumerId, endpoint: ChannelEndpoint)
    requires Plans(Pipeline(lower, alert, subscriptions, preferences), consumer, endpoint)
    ensures consumer in Consumers(EvaluateAll(lower, subscriptions, alert))
    ensures consumer in preferences && endpoint in preferences[consumer].channels
  {
    hide PlanAll, EvaluateAll, MatchesOf;
    var decisions := EvaluateAll(lower, subscriptions, alert);
    var groups := Grouped(decisions);
    var plan := Pipeline(lower, alert, subscriptions, preferences);
    var i :| 0 <= i < |plan| && plan[i].consumerId == consumer
          && plan[i].channel == endpoint.channel && plan[i].address == endpoint.address;
    PlanAllMembers(alert.id, groups, preferences, STANDARD_ATTEMPTS, plan[i]);
    var m :| m in groups && plan[i] in PlanConsumer(alert.id, m, preferences, STANDARD_ATTEMPTS);
    var k :| 0 <= k < |groups| && groups[k] == m;
    assert Consumers(decisions)[k] == consumer;
  }

  lemma MatchedMeansPlanned(
    lower: string -> string, alert: Alert, subscriptions: seq<Subscription>, preferences: Preferences,
    consumer: ConsumerId, endpoint: ChannelEndpoint)
    requires consumer in Consumers(EvaluateAll(lower, subscriptions, alert))
    requires consumer in preferences && endpoint in preferences[consumer].channels
    ensures Plans(Pipeline(lower, alert, subscriptions, preferences), consumer, endpoint)
  {
    hide PlanAll, EvaluateAll, MatchesOf;
    var decisions := EvaluateAll(lower, subscriptions, alert);
    var groups := Grouped(decisions);
    var plan := Pipeline(lower, alert, subscriptions, preferences);
    var k :| 0 <= k < |groups| && Consumers(decisions)[k] == consumer;
    var n :| 0 <= n < |preferences[consumer].channels| && preferences[consumer].channels[n] == endpoint;
    var p := PlanConsumer(alert.id, groups[k], preferences, STANDARD_ATTEMPTS)[n];
    assert groups[k] in groups;
    PlanAllMembers(alert.id, groups, preferences, STANDARD_ATTEMPTS, p);
    var i :| 0 <= i < |plan| && plan[i] == p;
  }

  /** Exactly these deliveries: one for an endpoint when and only when its consumer has a
      subscription all of whose rules hold and lists that endpoint as a contact. */
  lemma PipelineExact(
    lower: string -> string, alert: Alert, subscriptions: seq<Subscription>, preferences: Preferences,
    consumer: ConsumerId, endpoint: ChannelEndpoint)
    ensures Plans(Pipeline(lower, alert, subscriptions, preferences), consumer, endpoint) <==>
            && SomeSubscriptionMatches(lower, alert, subscriptions, consumer)
            && consumer in preferences
            && endpoint in preferences[consumer].channels
  {
    hide Plans, Pipeline, EvaluateAll, Consumers, SomeSubscriptionMatches;
    MatchedConsumers(lower, alert, subscriptions, consumer);
    if Plans(Pipeline(lower, alert, subscriptions, preferences), consumer, endpoint) {
      PlannedMeansMatched(lower, alert, subscriptions, preferences, consumer, endpoint);
    }
    if consumer in Consumers(EvaluateAll(lower, subscriptions, alert)) && consumer in preferences
       && endpoint in preferences[consumer].channels {
      MatchedMeansPlanned(lower, alert, subscriptions, preferences, consumer, endpoint);
    }
  }

  /** The explanation is one of the consumer's subscriptions that accept the alert, in the version it had. */
  ghost predicate Explains(
    lower: string -> string, alert: Alert, subscriptions: seq<Subscription>, consumer: ConsumerId,
    m: MatchedSubscription)
  {
    exists i :: && 0 <= i < |subscriptions|
                && subscriptions[i].consumerId == consumer && AllRulesHold(lower, subscriptions[i], alert)
                && m.subscriptionId == subscriptions[i].id && m.subscriptionVersion == subscriptions[i].version
  }

  lemma ExplanationsAreExact(
    lower: string -> string, alert: Alert, subscriptions: seq<Subscription>, consumer: ConsumerId,
    m: MatchedSubscription)
    ensures m in MatchesOf(consumer, EvaluateAll(lower, subscriptions, alert)) <==>
            Explains(lower, alert, subscriptions, consumer, m)
  {
    hide AllRulesHold, Evaluate;
    var decisions := EvaluateAll(lower, subscriptions, alert);
    forall i | 0 <= i < |subscriptions|
      ensures decisions[i].matched <==> AllRulesHold(lower, subscriptions[i], alert)
      ensures decisions[i].consumerId == subscriptions[i].consumerId
      ensures decisions[i].subscriptionId == subscriptions[i].id
      ensures decisions[i].subscriptionVersion == subscriptions[i].version
    {
      MatchedIffAllRulesHold(lower, subscriptions[i], alert);
    }
    var mine := Filter((d: MatchDecision) => d.matched && d.consumerId == consumer, decisions);
    if m in MatchesOf(consumer, decisions) {
      var k :| 0 <= k < |mine| && AsMatched(mine[k]) == m;
      assert mine[k] in mine;
      var i :| 0 <= i < |decisions| && decisions[i] == mine[k];
    }
    if i :| && 0 <= i < |subscriptions|
            && subscriptions[i].consumerId == consumer && AllRulesHold(lower, subscriptions[i], alert)
            && m.subscriptionId == subscriptions[i].id && m.subscriptionVersion == subscriptions[i].version {
      assert decisions[i] in decisions;
      var k :| 0 <= k < |mine| && mine[k] == decisions[i];
      assert MatchesOf(consumer, decisions)[k] == m;
    }
  }

  /** Once each, with the right explanation, and no more of them than there are contacts. */
  lemma PipelineOnceEach(
    lower: string -> string, alert: Alert, subscriptions: seq<Subscription>, preferences: Preferences)
    requires ValidPreferences(preferences)
    ensures var plan := Pipeline(lower, alert, subscriptions, preferences);
            var decisions := EvaluateAll(lower, subscriptions, alert);
            && (forall i, j :: 0 <= i < j < |plan| ==> IdempotencyKey(plan[i]) != IdempotencyKey(plan[j]))
            && (forall p :: p in plan ==> p.alertId == alert.id && p.maxAttempts == 5)
            && (forall p :: p in plan ==> p.subscriptions == MatchesOf(p.consumerId, decisions))
            && (forall p, m :: p in plan ==>
                  (m in p.subscriptions <==> Explains(lower, alert, subscriptions, p.consumerId, m)))
            && |plan| == Sum(ChannelCounts(Grouped(decisions), preferences))
  {
    var plan := Pipeline(lower, alert, subscriptions, preferences);
    var decisions := EvaluateAll(lower, subscriptions, alert);
    PipelineWellFormed(lower, alert, subscriptions, preferences);
    forall i, j | 0 <= i < j < |plan| ensures IdempotencyKey(plan[i]) != IdempotencyKey(plan[j]) {
      PlanKeysDistinct(alert.id, preferences, plan, i, j);
    }
    forall p | p in plan
      ensures p.alertId == alert.id && p.maxAttempts == 5
      ensures p.subscriptions == MatchesOf(p.consumerId, decisions)
      ensures forall m :: m in p.subscriptions <==> Explains(lower, alert, subscriptions, p.consumerId, m)
    {
      forall m ensures m in MatchesOf(p.consumerId, decisions) <==>
                       Explains(lower, alert, subscriptions, p.consumerId, m) {
        ExplanationsAreExact(lower, alert, subscriptions, p.consumerId, m);
      }
      PlanAllMembers(alert.id, Grouped(decisions), preferences, STANDARD_ATTEMPTS, p);
      var m :| m in Grouped(decisions) && p in PlanConsumer(alert.id, m, preferences, STANDARD_ATTEMPTS);
    }
    PlanLength(alert.id, Grouped(decisions), preferences, STANDARD_ATTEMPTS);
  }
}
