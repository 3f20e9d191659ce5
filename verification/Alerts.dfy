/** Alert policies and the projection of a verified case into an alert. */
module Alerts {
  import opened Prelude
  import opened Identifiers
  import opened Cases

  datatype AlertVisibility = Internal | Partner | Community | Public

  predicate AdmitsInternalOnlyFields(visibility: AlertVisibility) {
    visibility.Internal? || visibility.Partner?
  }

  datatype AlertField =
    | IncidentCategory
    | ApproximateAge
    | LastSeenGeneralArea
    | TimeWindow
    | SafeDescription
    | OfficialContact
    | CaseReference
    | ReporterIdentity
    | InternalNotes
    | ExactLocation
    | WitnessDetails
    | SafeDescriptionEn
    | SafeDescriptionFr

  predicate IsForbidden(field: AlertField) {
    field.ReporterIdentity?
  }

  predicate IsRestrictedToInternalAudiences(field: AlertField) {
    field.InternalNotes? || field.ExactLocation? || field.WitnessDetails?
  }

  datatype Severity = Low | Medium | High | Critical

  function Rank(severity: Severity): nat {
    match severity
    case Low => 0
    case Medium => 1
    case High => 2
    case Critical => 3
  }

  /** The four severities in order. */
  predicate IsBelow(a: Severity, b: Severity) {
    match (a, b)
    case (Low, Low) => false
    case (Low, _) => true
    case (Medium, High) => true
    case (_, Critical) => a != Critical
    case _ => false
  }

  lemma RankOrders(a: Severity, b: Severity)
    ensures Rank(a) < Rank(b) <==> IsBelow(a, b)
    ensures Rank(a) == Rank(b) <==> a == b
  {
  }

  datatype AlertPolicy = AlertPolicy(
    id: string,
    version: nat,
    incidentType: IncidentType,
    visibility: AlertVisibility,
    trigger: CaseEventType,
    allowlist: seq<AlertField>)

  datatype AlertPolicyError =
    | EmptyFieldAllowlist
    | FieldNeverAllowed(field: AlertField)
    | FieldNotAllowedForVisibility(restricted: AlertField, visibility: AlertVisibility)
    | TriggerBeforeVerification(trigger: CaseEventType)

  /** The first element of `fields` satisfying `p`. */
  function Find(p: AlertField -> bool, fields: seq<AlertField>): (found: Option<AlertField>)
    ensures found.Some? ==>
              exists i :: 0 <= i < |fields| && fields[i] == found.value && p(fields[i])
                          && forall j :: 0 <= j < i ==> !p(fields[j])
    ensures found.None? ==> forall field :: field in fields ==> !p(field)
  {
    if |fields| == 0 then None
    else if p(fields[0]) then Some(fields[0])
    else Find(p, fields[1..])
  }

  function NewPolicy(policy: AlertPolicy): (result: Result<AlertPolicy, AlertPolicyError>)
    ensures result.Success? ==> result.value == policy
  {
    var forbidden := Find(field => IsForbidden(field), policy.allowlist);
    var restricted := Find(field => IsRestrictedToInternalAudiences(field), policy.allowlist);
    if |policy.allowlist| == 0 then Failure(EmptyFieldAllowlist)
    else if forbidden.Some? then Failure(FieldNeverAllowed(forbidden.value))
    else if !AdmitsInternalOnlyFields(policy.visibility) && restricted.Some? then
      Failure(FieldNotAllowedForVisibility(restricted.value, policy.visibility))
    else if policy.trigger !in {CaseVerified, CaseActivated, CaseResolved} then
      Failure(TriggerBeforeVerification(policy.trigger))
    else Success(policy)
  }

  /** What every policy that exists satisfies. */
  ghost predicate SafePolicy(policy: AlertPolicy) {
    && |policy.allowlist| > 0
    && ReporterIdentity !in policy.allowlist
    && (InternalNotes in policy.allowlist || ExactLocation in policy.allowlist || WitnessDetails in policy.allowlist ==>
          policy.visibility == Internal || policy.visibility == Partner)
    && (policy.trigger == CaseVerified || policy.trigger == CaseActivated || policy.trigger == CaseResolved)
  }

  /** A policy can be built exactly when it is safe. */
  lemma PolicyExistsIffSafe(policy: AlertPolicy)
    ensures NewPolicy(policy).Success? <==> SafePolicy(policy)
  {
    var forbidden := Find(field => IsForbidden(field), policy.allowlist);
    var restricted := Find(field => IsRestrictedToInternalAudiences(field), policy.allowlist);
  }

  /** The field is the first of the list that is for internal and partner audiences only. */
  ghost predicate IsFirstRestricted(allowlist: seq<AlertField>, field: AlertField) {
    && field in {InternalNotes, ExactLocation, WitnessDetails}
    && exists i :: 0 <= i < |allowlist| && allowlist[i] == field
                   && forall j :: 0 <= j < i ==> allowlist[j] !in {InternalNotes, ExactLocation, WitnessDetails}
  }

  /** Why a policy is refused, in the order the reasons are looked for. */
  lemma PolicyRefusals(policy: AlertPolicy)
    ensures var result := NewPolicy(policy);
            && (result == Failure(EmptyFieldAllowlist) <==> policy.allowlist == [])
            && (result == Failure(FieldNeverAllowed(ReporterIdentity)) <==> ReporterIdentity in policy.allowlist)
            && (result.Failure? && result.error.TriggerBeforeVerification? ==>
                  && result.error.trigger == policy.trigger
                  && policy.trigger !in {CaseVerified, CaseActivated, CaseResolved})
            && (result.Failure? && result.error.FieldNotAllowedForVisibility? ==>
                  && IsFirstRestricted(policy.allowlist, result.error.restricted)
                  && result.error.visibility == policy.visibility
                  && policy.visibility in {Community, Public})
  {
  }

  const MISSING_CHILD_COMMUNITY := AlertPolicy(
    "MISSING_CHILD_COMMUNITY", 1, MissingChild, Community, CaseVerified,
    [IncidentCategory, ApproximateAge, LastSeenGeneralArea, TimeWindow,
     SafeDescriptionEn, SafeDescriptionFr, OfficialContact, CaseReference])

  /** The built-in template passes the checks every policy must pass. */
  lemma TemplateIsSafe()
    ensures NewPolicy(MISSING_CHILD_COMMUNITY) == Success(MISSING_CHILD_COMMUNITY)
  {
    hide NewPolicy, Find;
    PolicyExistsIffSafe(MISSING_CHILD_COMMUNITY);
  }

  datatype AlertFieldValue = AlertFieldValue(field: AlertField, value: string)

  datatype AlertStatus = AlertActive | AlertCancelled

  datatype Alert = Alert(
    id: AlertId,
    caseId: CaseId,
    policy: AlertPolicy,
    severity: Severity,
    geography: string,
    status: AlertStatus,
    fields: seq<AlertFieldValue>,
    version: nat,
    issuedBy: Option<OrganizationId>)

  datatype AlertError =
    | CaseNotVerified(status: CaseStatus)
    | IncidentTypeMismatch(caseType: IncidentType, policyType: IncidentType)
    | FieldNotAllowedByPolicy(field: AlertField)
    | DuplicateField(duplicate: AlertField)
    | ReviewerRequired(visibility: AlertVisibility)
    | AlreadyCancelled

  predicate IsVerifiedOrLater(status: CaseStatus) {
    status.Verified? || status.Active? || status.Resolved?
  }

  function FieldsOf(values: seq<AlertFieldValue>): seq<AlertField> {
    Map((v: AlertFieldValue) => v.field, values)
  }

  /** The complaint about the first offending field, reading left to right. */
  function FieldComplaint(policy: AlertPolicy, values: seq<AlertFieldValue>): Option<AlertError> {
    if |values| == 0 then None
    else
      var front, last := values[..|values| - 1], values[|values| - 1].field;
      var earlier := FieldComplaint(policy, front);
      if earlier.Some? then earlier
      else if last !in policy.allowlist then Some(FieldNotAllowedByPolicy(last))
      else if last in FieldsOf(front) then Some(DuplicateField(last))
      else None
  }

  /** Fields are accepted exactly when each is allowed and none repeats. */
  lemma {:induction false} FieldsAcceptedIff(policy: AlertPolicy, values: seq<AlertFieldValue>)
    ensures FieldComplaint(policy, values).None? <==>
            (forall i :: 0 <= i < |values| ==> values[i].field in policy.allowlist) && Distinct(FieldsOf(values))
  {
    if |values| > 0 {
      var front := values[..|values| - 1];
      FieldsAcceptedIff(policy, front);
      assert FieldsOf(values) == FieldsOf(front) + [values[|values| - 1].field];
      if Distinct(FieldsOf(values)) {
        forall i, j | 0 <= i < j < |front| ensures FieldsOf(front)[i] != FieldsOf(front)[j] {
          assert FieldsOf(values)[i] != FieldsOf(values)[j];
        }
      }
    }
  }

  /** The complaint is about the first field that is not allowed or repeats an earlier one. */
  lemma {:induction false} FirstComplaint(policy: AlertPolicy, values: seq<AlertFieldValue>) returns (i: nat)
    requires FieldComplaint(policy, values).Some?
    ensures i < |values|
    ensures forall j :: 0 <= j < i ==> values[j].field in policy.allowlist
    ensures Distinct(FieldsOf(values[..i]))
    ensures FieldComplaint(policy, values) == Some(
              if values[i].field in policy.allowlist then DuplicateField(values[i].field)
              else FieldNotAllowedByPolicy(values[i].field))
    ensures values[i].field in policy.allowlist ==> values[i].field in FieldsOf(values[..i])
  {
    var n := |values| - 1;
    if FieldComplaint(policy, values[..n]).Some? {
      i := FirstComplaint(policy, values[..n]);
      assert values[..n][..i] == values[..i];
    } else {
      FieldsAcceptedIff(policy, values[..n]);
      i := n;
    }
  }

  lemma {:induction false} ComplaintPersists(policy: AlertPolicy, values: seq<AlertFieldValue>, n: nat)
    requires n <= |values| && FieldComplaint(policy, values[..n]).Some?
    ensures FieldComplaint(policy, values) == FieldComplaint(policy, values[..n])
    decreases |values| - n
  {
    if n < |values| {
      assert values[..n + 1][..n] == values[..n];
      ComplaintPersists(policy, values, n + 1);
    } else {
      assert values[..n] == values;
    }
  }

  /** The scan over supplied fields, remembering the ones already seen. */
  method CheckFields(policy: AlertPolicy, values: seq<AlertFieldValue>) returns (complaint: Option<AlertError>)
    ensures complaint == FieldComplaint(policy, values)
    ensures complaint.None? <==>
            (forall i :: 0 <= i < |values| ==> values[i].field in policy.allowlist) && Distinct(FieldsOf(values))
  {
    FieldsAcceptedIff(policy, values);
    var seen: seq<AlertField> := [];
    for i := 0 to |values|
      invariant seen == FieldsOf(values[..i])
      invariant FieldComplaint(policy, values[..i]).None?
    {
      var field := values[i].field;
      assert values[..i + 1][..i] == values[..i];
      if field !in policy.allowlist {
        ComplaintPersists(policy, values, i + 1);
        return Some(FieldNotAllowedByPolicy(field));
      }
      if field in seen {
        ComplaintPersists(policy, values, i + 1);
        return Some(DuplicateField(field));
      }
      seen := seen + [field];
    }
    assert values[..|values|] == values;
    return None;
  }

  function CreatedFromCase(
    id: AlertId, c: CaseRow, policy: AlertPolicy, severity: Severity, geography: string,
    fields: seq<AlertFieldValue>, issuedBy: Option<OrganizationId>): Result<Alert, AlertError>
  {
    if !IsVerifiedOrLater(c.status) then Failure(CaseNotVerified(c.status))
    else if c.incidentType != policy.incidentType then
      Failure(IncidentTypeMismatch(c.incidentType, policy.incidentType))
    else
      var complaint := FieldComplaint(policy, fields);
      if complaint.Some? then Failure(complaint.value)
      else Success(Alert(id, c.id, policy, severity, geography, AlertActive, fields, 1, issuedBy))
  }

  /** The alert is for the case, under the policy, with the severity, area, fields and issuer it was asked for; it is
      active and in its first version. */
  ghost predicate Carries(
    alert: Alert, id: AlertId, c: CaseRow, policy: AlertPolicy, severity: Severity, geography: string,
    fields: seq<AlertFieldValue>, issuedBy: Option<OrganizationId>)
  {
    && alert.id == id && alert.caseId == c.id && alert.policy == policy
    && alert.severity == severity && alert.geography == geography && alert.fields == fields
    && alert.issuedBy == issuedBy
    && alert.status == AlertActive && alert.version == 1
  }

  method CreateFromCase(
    id: AlertId, c: CaseRow, policy: AlertPolicy, severity: Severity, geography: string,
    fields: seq<AlertFieldValue>, issuedBy: Option<OrganizationId>)
    returns (result: Result<Alert, AlertError>)
    ensures result == CreatedFromCase(id, c, policy, severity, geography, fields, issuedBy)
    ensures result.Success? <==>
            && (c.status == Verified || c.status == Active || c.status == Resolved)
            && c.incidentType == policy.incidentType
            && (forall i :: 0 <= i < |fields| ==> fields[i].field in policy.allowlist)
            && Distinct(FieldsOf(fields))
    ensures result.Success? ==> Carries(result.value, id, c, policy, severity, geography, fields, issuedBy)
    ensures result.Failure? && !(c.status == Verified || c.status == Active || c.status == Resolved) ==>
              result.error == CaseNotVerified(c.status)
    ensures result.Failure? && (c.status == Verified || c.status == Active || c.status == Resolved) ==>
              if c.incidentType != policy.incidentType
              then result.error == IncidentTypeMismatch(c.incidentType, policy.incidentType)
              else FieldComplaint(policy, fields) == Some(result.error)
  {
    if !IsVerifiedOrLater(c.status) {
      return Failure(CaseNotVerified(c.status));
    }
    if c.incidentType != policy.incidentType {
      return Failure(IncidentTypeMismatch(c.incidentType, policy.incidentType));
    }
    var complaint := CheckFields(policy, fields);
    if complaint.Some? {
      return Failure(complaint.value);
    }
    return Success(Alert(id, c.id, policy, severity, geography, AlertActive, fields, 1, issuedBy));
  }

  /** Community and public alerts reach an uncontrolled audience, so only a reviewer raises one. */
  predicate MayCreateAlert(actor: Actor, visibility: AlertVisibility) {
    AdmitsInternalOnlyFields(visibility) || actor.Reviewer?
  }

  function Issued(
    id: AlertId, c: CaseRow, policy: AlertPolicy, severity: Severity, geography: string,
    fields: seq<AlertFieldValue>, actor: Actor, issuedBy: Option<OrganizationId>): Result<Alert, AlertError>
  {
    if !MayCreateAlert(actor, policy.visibility) then Failure(ReviewerRequired(policy.visibility))
    else CreatedFromCase(id, c, policy, severity, geography, fields, issuedBy)
  }

  /** A reviewer may raise any alert, the system only one for internal or partner audiences; and what is raised is what
      was asked for. */
  lemma IssuedIff(
    id: AlertId, c: CaseRow, policy: AlertPolicy, severity: Severity, geography: string,
    fields: seq<AlertFieldValue>, actor: Actor, issuedBy: Option<OrganizationId>)
    ensures var result := Issued(id, c, policy, severity, geography, fields, actor, issuedBy);
            && (result.Success? <==>
                  && (actor.Reviewer? || policy.visibility == Internal || policy.visibility == Partner)
                  && (c.status == Verified || c.status == Active || c.status == Resolved)
                  && c.incidentType == policy.incidentType
                  && (forall i :: 0 <= i < |fields| ==> fields[i].field in policy.allowlist)
                  && Distinct(FieldsOf(fields)))
            && (result.Success? ==> Carries(result.value, id, c, policy, severity, geography, fields, issuedBy))
            && (result == Failure(ReviewerRequired(policy.visibility)) <==>
                  !(actor.Reviewer? || policy.visibility == Internal || policy.visibility == Partner))
  {
    FieldsAcceptedIff(policy, fields);
    if FieldComplaint(policy, fields).Some? {
      var i := FirstComplaint(policy, fields);
    }
  }

  /** Cancelling needs a reviewer at every visibility, and an active alert. */
  function CancelledBy(alert: Alert, actor: Actor): Result<Alert, AlertError> {
    if !actor.Reviewer? then Failure(ReviewerRequired(alert.policy.visibility))
    else if alert.status != AlertActive then Failure(AlreadyCancelled)
    else Success(alert.(status := AlertCancelled, version := alert.version + 1))
  }

  /** An alert held in memory while a request cancels it; everything but its status and version is fixed. */
  class AlertAggregate {
    const issued: Alert
    var status: AlertStatus
    var version: nat

    ghost function Row(): Alert
      reads this
    {
      issued.(status := status, version := version)
    }

    constructor Reconstitute(alert: Alert)
      ensures Row() == alert
    {
      issued, status, version := alert, alert.status, alert.version;
    }

    method Cancel(actor: Actor) returns (result: Result<nat, AlertError>)
      modifies this
      ensures match CancelledBy(old(Row()), actor)
              case Success(alert) => Row() == alert && result == Success(alert.version)
              case Failure(error) => Row() == old(Row()) && result == Failure(error)
      ensures result.Success? <==> actor.Reviewer? && old(status) == AlertActive
      ensures result.Success? ==>
                (status, version) == (AlertCancelled, old(version) + 1) && result.value == old(version) + 1
      ensures result.Failure? ==>
                && (status, version) == (old(status), old(version))
                && result.error == if actor.Reviewer? then AlreadyCancelled
                                   else ReviewerRequired(issued.policy.visibility)
    {
      if !actor.Reviewer? {
        return Failure(ReviewerRequired(issued.policy.visibility));
      }
      if status != AlertActive {
        return Failure(AlreadyCancelled);
      }
      status := AlertCancelled;
      version := version + 1;
      return Success(version);
    }
  }
}
