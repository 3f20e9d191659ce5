/** Self-service citizen subscriptions: creating, editing and reading one back. */
module Citizen {
  import opened Prelude
  import opened Text
  import opened Identifiers
  import opened Cases
  import opened Alerts
  import opened Subscriptions
  import opened Deliveries

  const CITIZEN_ALERT_VISIBILITIES := [Community, Public]

  datatype CitizenRequest = CitizenRequest(
    incidentTypes: seq<IncidentType>, minimumSeverity: Severity, geography: seq<string>)

  datatype CitizenError = EmptyIncidentTypes | InvalidGeography | InvalidPushSubscription

  /** The areas that survive: trimmed, in order, blank ones dropped. */
  function KeptAreas(names: seq<string>): (areas: seq<string>)
    ensures forall area :: area in areas <==> exists name :: name in names && NewGeoArea(name) == Some(area)
  {
    if |names| == 0 then []
    else
      var front, last := names[..|names| - 1], names[|names| - 1];
      assert names == front + [last];
      match NewGeoArea(last)
      case None => KeptAreas(front)
      case Some(area) =>
        assert last in names;
        KeptAreas(front) + [area]
  }

  lemma KeptOne(name: string)
    ensures KeptAreas([name]) == if IsBlank(name) then [] else [Trim(name)]
  {
    hide Trim, IsBlank;
    BlankIff(name);
    assert [name][..0] == [];
    assert KeptAreas([]) == [];
  }

  /** Areas are kept in the order and as often as they were asked for. */
  lemma {:induction false} KeptInOrder(names: seq<string>, more: seq<string>)
    ensures KeptAreas(names + more) == KeptAreas(names) + KeptAreas(more)
  {
    hide Trim;
    if |more| == 0 {
      assert names + more == names;
    } else {
      assert (names + more)[..|names + more| - 1] == names + more[..|more| - 1];
      KeptInOrder(names, more[..|more| - 1]);
    }
  }

  function Complaint(request: CitizenRequest): Option<CitizenError> {
    if |request.incidentTypes| == 0 then Some(EmptyIncidentTypes)
    else if |KeptAreas(request.geography)| == 0 then Some(InvalidGeography)
    else None
  }

  function CitizenRules(request: CitizenRequest): seq<SubscriptionRule> {
    [ IncidentTypeRule(request.incidentTypes),
      SeverityRule(GreaterThanOrEqual, request.minimumSeverity),
      GeographyRule(KeptAreas(request.geography)),
      VisibilityRule(CITIZEN_ALERT_VISIBILITIES) ]
  }

  datatype Prepared = Prepared(subscription: Subscription, preference: DeliveryPreference)

  function Prepare(
    request: CitizenRequest, push: string, id: SubscriptionId,
    consumer: ConsumerId): (r: Result<Prepared, CitizenError>)
    ensures r.Success? ==> ValidPreference(r.value.preference)
  {
    var complaint, endpoint := Complaint(request), NewEndpoint(Push, push);
    if complaint.Some? then Failure(complaint.value)
    else if endpoint.None? then Failure(InvalidPushSubscription)
    else Success(Prepared(Subscription(id, consumer, 1, CitizenRules(request)),
                          DeliveryPreference(All, [endpoint.value])))
  }

  /** Refused, in this order, without incident types, without an area that is not blank, or without an address. */
  lemma PreparedOrRefused(request: CitizenRequest, push: string, id: SubscriptionId, consumer: ConsumerId)
    ensures var r := Prepare(request, push, id, consumer);
            && (r == Failure(EmptyIncidentTypes) <==> |request.incidentTypes| == 0)
            && (r == Failure(InvalidGeography) <==>
                  |request.incidentTypes| > 0 && forall name :: name in request.geography ==> IsBlank(name))
            && (r == Failure(InvalidPushSubscription) <==>
                  && |request.incidentTypes| > 0
                  && (exists name :: name in request.geography && !IsBlank(name))
                  && IsBlank(push))
            && (r.Success? ==>
                  && r.value.subscription.id == id && r.value.subscription.consumerId == consumer
                  && r.value.subscription.version == 1
                  && r.value.preference == DeliveryPreference(All, [ChannelEndpoint(Push, Trim(push))]))
  {
    hide Trim, KeptAreas;
    var kept := KeptAreas(request.geography);
    if |kept| > 0 {
      assert kept[0] in kept;
    }
    BlankIff(push);
    forall name | name in request.geography ensures IsBlank(name) <==> |Trim(name)| == 0 {
      BlankIff(name);
    }
    forall name | name in request.geography && !IsBlank(name) ensures Trim(name) in kept {
      assert NewGeoArea(name) == Some(Trim(name));
    }
  }

  method UpdateCitizenSubscription(subscription: EditableSubscription, request: CitizenRequest)
    returns (rejected: Option<CitizenError>)
    modifies subscription
    ensures rejected == Complaint(request)
    ensures subscription.Row() == Updated(old(subscription.Row()), request)
  {
    rejected := Complaint(request);
    if rejected.Some? {
      return;
    }
    var accepted := subscription.UpdateRules(CitizenRules(request));
    assert accepted;
  }

  datatype UpdateOutcome = Saved | Refusal(error: CitizenError) | Conflict

  /** The stored subscriptions and contact preferences. */
  class CitizenStore {
    var subscriptions: map<SubscriptionId, Subscription>
    var preferences: map<ConsumerId, DeliveryPreference>

    constructor ()
      ensures subscriptions == map[] && preferences == map[]
    {
      subscriptions, preferences := map[], map[];
    }

    /** The stored row still has the version that was loaded. */
    predicate IsCurrent(loaded: Subscription)
      reads this
    {
      loaded.id in subscriptions && subscriptions[loaded.id].version == loaded.version
    }

    /** An edit of a loaded subscription, written only over the version it was computed from; then, if one was sent, a
        new push address. A bad address is noticed only after the subscription has been written. */
    method Update(loaded: EditableSubscription, request: CitizenRequest, push: Option<string>)
      returns (outcome: UpdateOutcome)
      modifies this, loaded
      ensures var row := old(loaded.Row());
              var saved := Complaint(request).None? && old(IsCurrent(row));
              && (outcome == Conflict <==> Complaint(request).None? && !old(IsCurrent(row)))
              && (outcome == Saved <==> saved && (push.Some? ==> !IsBlank(push.value)))
              && (Complaint(request).Some? ==> outcome == Refusal(Complaint(request).value))
              && subscriptions ==
                 (if saved then
                    old(subscriptions)[row.id := old(subscriptions)[row.id].(
                      version := row.version + 1, rules := CitizenRules(request))]
                  else old(subscriptions))
              && preferences ==
                 if outcome == Saved && push.Some?
                 then old(preferences)[row.consumerId :=
                        DeliveryPreference(All, [ChannelEndpoint(Push, Trim(push.value))])]
                 else old(preferences)
    {
      var rejected := UpdateCitizenSubscription(loaded, request);
      if rejected.Some? {
        return Refusal(rejected.value);
      }
      if loaded.id !in subscriptions || subscriptions[loaded.id].version != loaded.version - 1 {
        return Conflict;
      }
      subscriptions := subscriptions[loaded.id := subscriptions[loaded.id].(
        version := loaded.version, rules := loaded.rules)];
      if push.Some? {
        BlankIff(push.value);
        var endpoint := NewEndpoint(Push, push.value);
        if endpoint.None? {
          return Refusal(InvalidPushSubscription);
        }
        preferences := preferences[loaded.consumerId := DeliveryPreference(All, [endpoint.value])];
      }
      return Saved;
    }
  }

  function Updated(s: Subscription, request: CitizenRequest): Subscription {
    if Complaint(request).Some? then s else s.(rules := CitizenRules(request), version := s.version + 1)
  }

  /** A subscription after any sequence of edits, accepted or not. */
  function AfterEdits(s: Subscription, edits: seq<CitizenRequest>): Subscription {
    if |edits| == 0 then s else Updated(AfterEdits(s, edits[..|edits| - 1]), edits[|edits| - 1])
  }

  /** The request now in force: the last one accepted, or the one the subscription was created with. */
  function InForce(created: CitizenRequest, edits: seq<CitizenRequest>): CitizenRequest {
    if |edits| == 0 then created
    else if Complaint(edits[|edits| - 1]).None? then edits[|edits| - 1]
    else InForce(created, edits[..|edits| - 1])
  }

  function AcceptedEdits(edits: seq<CitizenRequest>): nat {
    |Filter((e: CitizenRequest) => Complaint(e).None?, edits)|
  }

  lemma {:induction false} EditsLeaveCitizenRules(
    created: CitizenRequest, s: Subscription, edits: seq<CitizenRequest>)
    requires s.rules == CitizenRules(created)
    ensures AfterEdits(s, edits).rules == CitizenRules(InForce(created, edits))
    ensures AfterEdits(s, edits).version == s.version + AcceptedEdits(edits)
    ensures AfterEdits(s, edits).consumerId == s.consumerId
  {
    if |edits| > 0 {
      EditsLeaveCitizenRules(created, s, edits[..|edits| - 1]);
    }
  }

  /** After any sequence of edits the subscription matches an alert exactly when the request in force
      covers it, and never an internal or partner alert: no edit can widen the audience. */
  lemma CitizenScope(
    lower: string -> string, created: CitizenRequest, push: string, id: SubscriptionId, consumer: ConsumerId,
    edits: seq<CitizenRequest>, alert: Alert)
    requires Prepare(created, push, id, consumer).Success?
    ensures var s := AfterEdits(Prepare(created, push, id, consumer).value.subscription, edits);
            Evaluate(lower, s, alert).matched <==> Covers(lower, InForce(created, edits), alert)
  {
    hide Covers, Evaluate, InForce, CitizenRules;
    var s := Prepare(created, push, id, consumer).value.subscription;
    EditsLeaveCitizenRules(created, s, edits);
    MatchedIffAllRulesHold(lower, AfterEdits(s, edits), alert);
    RulesInWords(lower, InForce(created, edits), AfterEdits(s, edits), alert);
  }

  /** The request lists the alert's incident type, the severity is not below the minimum, some requested area that is
      not blank stands in the target, trimmed and ignoring case, and the alert is for a broad audience. */
  ghost predicate Covers(lower: string -> string, request: CitizenRequest, alert: Alert) {
    && alert.policy.incidentType in request.incidentTypes
    && !IsBelow(alert.severity, request.minimumSeverity)
    && (exists i :: 0 <= i < |request.geography| && !IsBlank(request.geography[i]) &&
                    IsNamedIn(lower, Trim(request.geography[i]), alert.geography))
    && (alert.policy.visibility == Community || alert.policy.visibility == Public)
  }

  lemma KeptIsNamed(lower: string -> string, names: seq<string>, target: string, k: nat)
    requires k < |KeptAreas(names)| && IsNamedIn(lower, KeptAreas(names)[k], target)
    ensures exists i :: 0 <= i < |names| && !IsBlank(names[i]) && IsNamedIn(lower, Trim(names[i]), target)
  {
    hide Trim, IsBlank, KeptAreas, IsNamedIn;
    var area := KeptAreas(names)[k];
    assert area in KeptAreas(names);
    var name :| name in names && NewGeoArea(name) == Some(area);
    var i :| 0 <= i < |names| && names[i] == name;
    BlankIff(names[i]);
  }

  lemma NamedIsKept(lower: string -> string, names: seq<string>, target: string, i: nat)
    requires i < |names| && !IsBlank(names[i]) && IsNamedIn(lower, Trim(names[i]), target)
    ensures exists k :: 0 <= k < |KeptAreas(names)| && IsNamedIn(lower, KeptAreas(names)[k], target)
  {
    hide Trim, IsBlank, KeptAreas, IsNamedIn;
    BlankIff(names[i]);
    assert NewGeoArea(names[i]) == Some(Trim(names[i]));
    assert Trim(names[i]) in KeptAreas(names);
    var k :| 0 <= k < |KeptAreas(names)| && KeptAreas(names)[k] == Trim(names[i]);
    assert IsNamedIn(lower, KeptAreas(names)[k], target);
  }

  lemma KeptMeansNamed(lower: string -> string, names: seq<string>, target: string)
    ensures (exists k :: 0 <= k < |KeptAreas(names)| && IsNamedIn(lower, KeptAreas(names)[k], target)) <==>
            (exists i :: 0 <= i < |names| && !IsBlank(names[i]) && IsNamedIn(lower, Trim(names[i]), target))
  {
    hide Trim, IsBlank, KeptAreas, IsNamedIn;
    if k :| 0 <= k < |KeptAreas(names)| && IsNamedIn(lower, KeptAreas(names)[k], target) {
      KeptIsNamed(lower, names, target, k);
    } else if i :| 0 <= i < |names| && !IsBlank(names[i]) && IsNamedIn(lower, Trim(names[i]), target) {
      NamedIsKept(lower, names, target, i);
    }
  }

  lemma RulesInWords(lower: string -> string, request: CitizenRequest, s: Subscription, alert: Alert)
    requires s.rules == CitizenRules(request)
    ensures AllRulesHold(lower, s, alert) <==> Covers(lower, request, alert)
  {
    hide IsNamedIn, KeptAreas, Trim, IsBlank, Accepts, Covers;
    KeptMeansNamed(lower, request.geography, alert.geography);
    var rules := s.rules;
    FirstTwoRules(lower, request, alert);
    LastTwoRules(lower, request, alert);
    assert AllRulesHold(lower, s, alert) <==>
        && Accepts(lower, rules[0], alert) && Accepts(lower, rules[1], alert)
        && Accepts(lower, rules[2], alert) && Accepts(lower, rules[3], alert);
    CoversMeans(lower, request, alert);
  }

  lemma CoversMeans(lower: string -> string, request: CitizenRequest, alert: Alert)
    ensures Covers(lower, request, alert) <==>
            && alert.policy.incidentType in request.incidentTypes
            && !IsBelow(alert.severity, request.minimumSeverity)
            && (exists i :: 0 <= i < |request.geography| && !IsBlank(request.geography[i]) &&
                            IsNamedIn(lower, Trim(request.geography[i]), alert.geography))
            && (alert.policy.visibility == Community || alert.policy.visibility == Public)
  {
    hide IsNamedIn, Trim, IsBlank;
  }

  lemma FirstTwoRules(lower: string -> string, request: CitizenRequest, alert: Alert)
    ensures Accepts(lower, CitizenRules(request)[0], alert) <==> alert.policy.incidentType in request.incidentTypes
    ensures Accepts(lower, CitizenRules(request)[1], alert) <==> !IsBelow(alert.severity, request.minimumSeverity)
  {
    hide KeptAreas, IsNamedIn;
  }

  lemma LastTwoRules(lower: string -> string, request: CitizenRequest, alert: Alert)
    ensures Accepts(lower, CitizenRules(request)[2], alert) <==>
            exists i :: 0 <= i < |KeptAreas(request.geography)| &&
                        IsNamedIn(lower, KeptAreas(request.geography)[i], alert.geography)
    ensures Accepts(lower, CitizenRules(request)[3], alert) <==>
            alert.policy.visibility == Community || alert.policy.visibility == Public
  {
    hide KeptAreas, IsNamedIn;
    var area, rule := CitizenRules(request)[2], CitizenRules(request)[3];
    assert area.areas == KeptAreas(request.geography);
    assert rule.visibilities[0] == Community && rule.visibilities[1] == Public && |rule.visibilities| == 2;
  }

  datatype RulesResponse = RulesResponse(
    incidentTypes: seq<IncidentType>, minimumSeverity: Severity, geography: seq<string>)

  /** Reading a subscription's rules back, rule by rule. */
  method ReadRules(rules: seq<SubscriptionRule>) returns (response: RulesResponse)
    ensures forall request :: rules == CitizenRules(request) ==>
              response == RulesResponse(request.incidentTypes, request.minimumSeverity, KeptAreas(request.geography))
  {
    hide KeptAreas;
    var incidentTypes, minimumSeverity, geography := [], Low, [];
    for n := 0 to |rules|
      invariant forall request :: rules == CitizenRules(request) ==>
                  && (n >= 1 ==> incidentTypes == request.incidentTypes)
                  && (n >= 2 ==> minimumSeverity == request.minimumSeverity)
                  && (n >= 3 ==> geography == KeptAreas(request.geography))
    {
      match rules[n]
      case IncidentTypeRule(values) => incidentTypes := values;
      case SeverityRule(_, value) => minimumSeverity := value;
      case GeographyRule(areas) => geography := areas;
      case EventTypeRule(_) =>
      case VisibilityRule(_) =>
    }
    return RulesResponse(incidentTypes, minimumSeverity, geography);
  }
}
