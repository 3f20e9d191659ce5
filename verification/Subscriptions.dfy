/** Deterministic matching of an alert against subscriptions, and the grouping of
    matched subscriptions by consumer. */
module Subscriptions {
  import opened Prelude
  import opened Text
  import opened Identifiers
  import opened Cases
  import opened Alerts

  datatype Comparison = GreaterThan | GreaterThanOrEqual | Equal | LessThanOrEqual | LessThan

  predicate Compare(operator: Comparison, lhs: Severity, rhs: Severity) {
    match operator
    case GreaterThan => Rank(lhs) > Rank(rhs)
    case GreaterThanOrEqual => Rank(lhs) >= Rank(rhs)
    case Equal => Rank(lhs) == Rank(rhs)
    case LessThanOrEqual => Rank(lhs) <= Rank(rhs)
    case LessThan => Rank(lhs) < Rank(rhs)
  }

  /** A subscriber's area name; `None` for a name that is blank once trimmed. */
  function NewGeoArea(name: string): Option<string> {
    if |Trim(name)| == 0 then None else Some(Trim(name))
  }

  /** The alert's target must contain the area, ignoring case as `lower` defines it. */
  predicate MatchesTarget(lower: string -> string, area: string, target: string) {
    Contains(lower(target), lower(area))
  }

  datatype SubscriptionRule =
    | IncidentTypeRule(incidentTypes: seq<IncidentType>)
    | SeverityRule(operator: Comparison, value: Severity)
    | EventTypeRule(eventTypes: seq<CaseEventType>)
    | GeographyRule(areas: seq<string>)
    | VisibilityRule(visibilities: seq<AlertVisibility>)

  datatype Subscription = Subscription(
    id: SubscriptionId, consumerId: ConsumerId, version: nat, rules: seq<SubscriptionRule>)

  datatype MatchReason = MatchReason(rule: SubscriptionRule, matched: bool)

  datatype MatchDecision = MatchDecision(
    subscriptionId: SubscriptionId, subscriptionVersion: nat, consumerId: ConsumerId,
    matched: bool, reasons: seq<MatchReason>)

  predicate RuleHolds(lower: string -> string, rule: SubscriptionRule, alert: Alert) {
    match rule
    case IncidentTypeRule(types) => alert.policy.incidentType in types
    case SeverityRule(operator, value) => Compare(operator, alert.severity, value)
    case EventTypeRule(types) => alert.policy.trigger in types
    case GeographyRule(areas) => exists area :: area in areas && MatchesTarget(lower, area, alert.geography)
    case VisibilityRule(visibilities) => alert.policy.visibility in visibilities
  }

  function Evaluate(lower: string -> string, subscription: Subscription, alert: Alert): MatchDecision {
    var reasons := Map(rule => MatchReason(rule, RuleHolds(lower, rule, alert)), subscription.rules);
    MatchDecision(subscription.id, subscription.version, subscription.consumerId,
                  forall reason :: reason in reasons ==> reason.matched, reasons)
  }

  // ---- What the rules mean ----

  /** The alert's target reads: something, the area, something, ignoring case as `lower` defines it. */
  ghost predicate IsNamedIn(lower: string -> string, area: string, target: string) {
    exists before, after :: lower(target) == before + lower(area) + after
  }

  /** What each comparison asks of an alert's severity. */
  ghost predicate StandsTo(severity: Severity, operator: Comparison, value: Severity) {
    match operator
    case GreaterThan => IsBelow(value, severity)
    case GreaterThanOrEqual => !IsBelow(severity, value)
    case Equal => severity == value
    case LessThanOrEqual => !IsBelow(value, severity)
    case LessThan => IsBelow(severity, value)
  }

  lemma MatchesTargetIff(lower: string -> string, area: string, target: string)
    ensures MatchesTarget(lower, area, target) <==> IsNamedIn(lower, area, target)
  {
    ContainsIff(lower(target), lower(area));
  }

  lemma CompareIff(operator: Comparison, severity: Severity, value: Severity)
    ensures Compare(operator, severity, value) <==> StandsTo(severity, operator, value)
  {
    RankOrders(severity, value);
    RankOrders(value, severity);
  }

  /** What each rule accepts. */
  lemma RuleHoldsIff(lower: string -> string, rule: SubscriptionRule, alert: Alert)
    ensures RuleHolds(lower, rule, alert) <==> Accepts(lower, rule, alert)
  {
    hide MatchesTarget, IsNamedIn, Compare, StandsTo;
    match rule {
      case SeverityRule(operator, value) => CompareIff(operator, alert.severity, value);
      case GeographyRule(areas) =>
        forall area ensures MatchesTarget(lower, area, alert.geography) <==> IsNamedIn(lower, area, alert.geography) {
          MatchesTargetIff(lower, area, alert.geography);
        }
      case _ =>
    }
  }

  ghost predicate Accepts(lower: string -> string, rule: SubscriptionRule, alert: Alert) {
    && (rule.IncidentTypeRule? ==>
          exists i :: 0 <= i < |rule.incidentTypes| && rule.incidentTypes[i] == alert.policy.incidentType)
    && (rule.SeverityRule? ==> StandsTo(alert.severity, rule.operator, rule.value))
    && (rule.EventTypeRule? ==> exists i :: 0 <= i < |rule.eventTypes| && rule.eventTypes[i] == alert.policy.trigger)
    && (rule.GeographyRule? ==>
          exists i :: 0 <= i < |rule.areas| && IsNamedIn(lower, rule.areas[i], alert.geography))
    && (rule.VisibilityRule? ==>
          exists i :: 0 <= i < |rule.visibilities| && rule.visibilities[i] == alert.policy.visibility)
  }

  ghost predicate AllRulesHold(lower: string -> string, subscription: Subscription, alert: Alert) {
    forall i :: 0 <= i < |subscription.rules| ==> Accepts(lower, subscription.rules[i], alert)
  }

  /** A subscription matches if and only if each of its rules accepts the alert; the decision names the subscription,
      its version and its consumer, and explains itself rule by rule. */
  lemma MatchedIffAllRulesHold(lower: string -> string, subscription: Subscription, alert: Alert)
    ensures var decision := Evaluate(lower, subscription, alert);
            && (decision.matched <==> AllRulesHold(lower, subscription, alert))
            && decision.subscriptionId == subscription.id
            && decision.subscriptionVersion == subscription.version
            && decision.consumerId == subscription.consumerId
            && |decision.reasons| == |subscription.rules|
            && forall i :: 0 <= i < |subscription.rules| ==>
                 && decision.reasons[i].rule == subscription.rules[i]
                 && (decision.reasons[i].matched <==> Accepts(lower, subscription.rules[i], alert))
  {
    hide RuleHolds, Accepts;
    var reasons := Evaluate(lower, subscription, alert).reasons;
    forall i | 0 <= i < |subscription.rules|
      ensures reasons[i].matched <==> Accepts(lower, subscription.rules[i], alert)
    {
      RuleHoldsIff(lower, subscription.rules[i], alert);
    }
    if AllRulesHold(lower, subscription, alert) {
      forall reason | reason in reasons ensures reason.matched {
        var i :| 0 <= i < |reasons| && reasons[i] == reason;
      }
    } else {
      var i :| 0 <= i < |subscription.rules| && !Accepts(lower, subscription.rules[i], alert);
      assert reasons[i] in reasons;
    }
  }

  function EvaluateAll(lower: string -> string, subscriptions: seq<Subscription>, alert: Alert): seq<MatchDecision> {
    Map(subscription => Evaluate(lower, subscription, alert), subscriptions)
  }

  /** A subscription under edit. Its rule set is replaced as a whole, never emptied. */
  class EditableSubscription {
    const id: SubscriptionId
    const consumerId: ConsumerId
    var version: nat
    var rules: seq<SubscriptionRule>

    ghost function Row(): Subscription
      reads this
    {
      Subscription(id, consumerId, version, rules)
    }

    constructor Reconstitute(row: Subscription)
      ensures Row() == row
    {
      id, consumerId, version, rules := row.id, row.consumerId, row.version, row.rules;
    }

    method UpdateRules(newRules: seq<SubscriptionRule>) returns (accepted: bool)
      modifies this
      ensures accepted <==> |newRules| > 0
      ensures Row() == if accepted then old(Row()).(rules := newRules, version := old(version) + 1) else old(Row())
    {
      if |newRules| == 0 {
        return false;
      }
      rules := newRules;
      version := version + 1;
      return true;
    }
  }

  datatype MatchedSubscription = MatchedSubscription(subscriptionId: SubscriptionId, subscriptionVersion: nat)

  datatype ConsumerMatch = ConsumerMatch(consumerId: ConsumerId, subscriptions: seq<MatchedSubscription>)

  // ---- Grouping by consumer, specified without the loop ----

  /** The consumers of matched decisions, each at its first appearance. */
  function Consumers(decisions: seq<MatchDecision>): (consumers: seq<ConsumerId>)
    ensures Distinct(consumers)
    ensures forall c :: c in consumers <==>
              exists i :: 0 <= i < |decisions| && decisions[i].matched && decisions[i].consumerId == c
  {
    if |decisions| == 0 then []
    else
      var front, last := decisions[..|decisions| - 1], decisions[|decisions| - 1];
      assert decisions == front + [last];
      if last.matched && last.consumerId !in Consumers(front) then Consumers(front) + [last.consumerId]
      else Consumers(front)
  }

  function AsMatched(decision: MatchDecision): MatchedSubscription {
    MatchedSubscription(decision.subscriptionId, decision.subscriptionVersion)
  }

  /** One consumer's matched decisions, in order, with the version each matched under. */
  function MatchesOf(consumer: ConsumerId, decisions: seq<MatchDecision>): seq<MatchedSubscription> {
    Map(AsMatched, Filter((d: MatchDecision) => d.matched && d.consumerId == consumer, decisions))
  }

  function Grouped(decisions: seq<MatchDecision>): (groups: seq<ConsumerMatch>) {
    Map(c => ConsumerMatch(c, MatchesOf(c, decisions)), Consumers(decisions))
  }

  lemma MatchesOfSnoc(consumer: ConsumerId, decisions: seq<MatchDecision>, last: MatchDecision)
    ensures MatchesOf(consumer, decisions + [last]) ==
            MatchesOf(consumer, decisions) +
            if last.matched && last.consumerId == consumer then [AsMatched(last)] else []
  {
    assert (decisions + [last])[..|decisions|] == decisions;
  }

  lemma NoMatchesBeforeFirst(consumer: ConsumerId, decisions: seq<MatchDecision>)
    requires consumer !in Consumers(decisions)
    ensures MatchesOf(consumer, decisions) == []
  {
    var mine := Filter((d: MatchDecision) => d.matched && d.consumerId == consumer, decisions);
    assert forall d :: d !in mine;
  }

  /** The group-by as the engine runs it: one pass that edits the result in place. */
  method DeduplicateByConsumer(decisions: seq<MatchDecision>) returns (result: seq<ConsumerMatch>)
    ensures result == Grouped(decisions)
  {
    result := [];
    for n := 0 to |decisions|
      invariant result == Grouped(decisions[..n])
    {
      var decision := decisions[n];
      assert decisions[..n + 1] == decisions[..n] + [decision];
      assert decisions[..n + 1][..n] == decisions[..n];
      if decision.matched {
        var k := 0;
        while k < |result| && result[k].consumerId != decision.consumerId
          invariant 0 <= k <= |result|
          invariant forall j :: 0 <= j < k ==> result[j].consumerId != decision.consumerId
        {
          k := k + 1;
        }
        GroupedSnoc(decisions[..n], decision, k);
        if k < |result| {
          result := result[k := result[k].(subscriptions := result[k].subscriptions + [AsMatched(decision)])];
        } else {
          result := result + [ConsumerMatch(decision.consumerId, [AsMatched(decision)])];
        }
      } else {
        UnmatchedLeavesGroups(decisions[..n], decision);
      }
    }
    assert decisions[..|decisions|] == decisions;
  }

  lemma ConsumersSnoc(decisions: seq<MatchDecision>, last: MatchDecision)
    requires last.matched
    ensures var consumers := Consumers(decisions);
            Consumers(decisions + [last]) ==
            if last.consumerId in consumers then consumers else consumers + [last.consumerId]
  {
    assert (decisions + [last])[..|decisions|] == decisions;
  }

  /** One more match extends its consumer's group and leaves every other group alone. */
  lemma GroupAt(decisions: seq<MatchDecision>, last: MatchDecision, j: nat)
    requires last.matched && j < |Grouped(decisions)|
    ensures j < |Grouped(decisions + [last])|
    ensures Grouped(decisions + [last])[j] ==
            var group := Grouped(decisions)[j];
            if group.consumerId == last.consumerId
            then group.(subscriptions := group.subscriptions + [AsMatched(last)]) else group
  {
    hide MatchesOf;
    ConsumersSnoc(decisions, last);
    MatchesOfSnoc(Consumers(decisions)[j], decisions, last);
  }

  /** A consumer's first match opens a new last group; a later one opens none. */
  lemma GroupsAdded(decisions: seq<MatchDecision>, last: MatchDecision)
    requires last.matched
    ensures var before, after := Grouped(decisions), Grouped(decisions + [last]);
            if exists j :: 0 <= j < |before| && before[j].consumerId == last.consumerId then |after| == |before|
            else |after| == |before| + 1 && after[|before|] == ConsumerMatch(last.consumerId, [AsMatched(last)])
  {
    hide MatchesOf;
    ConsumersSnoc(decisions, last);
    MatchesOfSnoc(last.consumerId, decisions, last);
    var before, consumers := Grouped(decisions), Consumers(decisions);
    if last.consumerId in consumers {
      var j :| 0 <= j < |consumers| && consumers[j] == last.consumerId;
      assert before[j].consumerId == last.consumerId;
    } else {
      NoMatchesBeforeFirst(last.consumerId, decisions);
    }
  }

  lemma GroupKeysDiffer(decisions: seq<MatchDecision>, j: nat, k: nat)
    requires j < |Grouped(decisions)| && k < |Grouped(decisions)| && j != k
    ensures Grouped(decisions)[j].consumerId != Grouped(decisions)[k].consumerId
  {
    var consumers := Consumers(decisions);
    assert consumers[j] != consumers[k];
  }

  lemma GroupedSnoc(decisions: seq<MatchDecision>, last: MatchDecision, k: nat)
    requires last.matched
    requires k <= |Grouped(decisions)|
    requires forall j :: 0 <= j < k ==> Grouped(decisions)[j].consumerId != last.consumerId
    requires k < |Grouped(decisions)| ==> Grouped(decisions)[k].consumerId == last.consumerId
    ensures Grouped(decisions + [last]) ==
            var before := Grouped(decisions);
            if k < |before| then before[k := before[k].(subscriptions := before[k].subscriptions + [AsMatched(last)])]
            else before + [ConsumerMatch(last.consumerId, [AsMatched(last)])]
  {
    hide Grouped, AsMatched;
    var before, after := Grouped(decisions), Grouped(decisions + [last]);
    GroupsAdded(decisions, last);
    forall j | 0 <= j < |before| && j != k
      ensures j < |after| && after[j] == before[j]
    {
      GroupAt(decisions, last, j);
      if k < |before| {
        GroupKeysDiffer(decisions, j, k);
      }
    }
    if k < |before| {
      GroupAt(decisions, last, k);
    }
  }

  function GroupSizes(groups: seq<ConsumerMatch>): seq<nat> {
    Map((g: ConsumerMatch) => |g.subscriptions|, groups)
  }

  lemma {:induction false} SumUpdate(xs: seq<nat>, k: nat, x: nat)
    requires k < |xs|
    ensures Sum(xs[k := x]) == Sum(xs) - xs[k] + x
  {
    var n := |xs| - 1;
    if k == n {
      assert xs[k := x][..n] == xs[..n];
    } else {
      SumUpdate(xs[..n], k, x);
      assert xs[k := x][..n] == xs[..n][k := x];
    }
  }

  lemma GroupSizesSnoc(decisions: seq<MatchDecision>, last: MatchDecision)
    ensures Sum(GroupSizes(Grouped(decisions + [last]))) ==
            Sum(GroupSizes(Grouped(decisions))) + if last.matched then 1 else 0
  {
    hide Grouped, AsMatched;
    var groups, after := Grouped(decisions), Grouped(decisions + [last]);
    if !last.matched {
      UnmatchedLeavesGroups(decisions, last);
    } else if k :| 0 <= k < |groups| && groups[k].consumerId == last.consumerId {
      forall j | 0 <= j < k ensures groups[j].consumerId != last.consumerId {
        GroupKeysDiffer(decisions, j, k);
      }
      GroupedSnoc(decisions, last, k);
      SumUpdate(GroupSizes(groups), k, |groups[k].subscriptions| + 1);
      assert GroupSizes(after) == GroupSizes(groups)[k := |groups[k].subscriptions| + 1];
    } else {
      GroupedSnoc(decisions, last, |groups|);
      assert GroupSizes(after) == GroupSizes(groups) + [1];
      assert GroupSizes(after)[..|groups|] == GroupSizes(groups);
    }
  }

  /** Grouping loses and repeats nothing: the groups together hold one entry per matched decision. */
  lemma {:induction false} GroupingConserves(decisions: seq<MatchDecision>)
    ensures Sum(GroupSizes(Grouped(decisions))) == |Filter((d: MatchDecision) => d.matched, decisions)|
  {
    if |decisions| > 0 {
      var front, last := decisions[..|decisions| - 1], decisions[|decisions| - 1];
      assert decisions == front + [last];
      GroupingConserves(front);
      GroupSizesSnoc(front, last);
    }
  }

  lemma UnmatchedLeavesGroups(decisions: seq<MatchDecision>, last: MatchDecision)
    requires !last.matched
    ensures Grouped(decisions + [last]) == Grouped(decisions)
  {
    assert (decisions + [last])[..|decisions|] == decisions;
    var consumers := Consumers(decisions);
    forall j | 0 <= j < |consumers|
      ensures MatchesOf(consumers[j], decisions + [last]) == MatchesOf(consumers[j], decisions)
    {
      MatchesOfSnoc(consumers[j], decisions, last);
    }
  }
}
