/** The case aggregate: a reviewed incident that one or more reports are evidence for. */
module Cases {
  import opened Prelude
  import opened Identifiers

  datatype IncidentType = MissingChild | OtherProtectionIncident

  datatype CaseStatus =
    Reported | UnderReview | Verified | Active | Resolved | Cancelled | Rejected

  datatype CaseEventType =
    | CaseCreated
    | CaseReportLinked
    | CaseUnderReview
    | CaseVerified
    | CaseActivated
    | CaseResolved
    | CaseCancelled
    | CaseRejected

  /** Who acts: a signed-in reviewer, or the system itself. */
  datatype Actor = Reviewer(id: ReviewerId) | Automated

  datatype CaseEvent = CaseEvent(kind: CaseEventType, version: nat)

  /** A case as it is stored and loaded. */
  datatype CaseRow = CaseRow(
    id: CaseId, incidentType: IncidentType, status: CaseStatus, reports: seq<ReportId>, version: nat)

  datatype CaseChange = CaseChange(row: CaseRow, event: CaseEvent)

  datatype CaseError =
    | DuplicateReportLink(caseId: CaseId, reportId: ReportId)
    | InvalidTransition(from: CaseStatus, to: CaseStatus)
    | NotAuthorized(attempted: CaseStatus)

  function Opened(id: CaseId, incidentType: IncidentType, firstReport: ReportId): CaseChange {
    CaseChange(CaseRow(id, incidentType, Reported, [firstReport], 1), CaseEvent(CaseCreated, 1))
  }

  predicate IsAllowedTransition(from: CaseStatus, to: CaseStatus) {
    match (from, to)
    case (Reported, UnderReview) => true
    case (UnderReview, Verified) => true
    case (UnderReview, Rejected) => true
    case (Verified, Active) => true
    case (Verified, Cancelled) => true
    case (Active, Resolved) => true
    case (Active, Cancelled) => true
    case _ => false
  }

  /** The event of entering `status`. A case never re-enters `Reported`, so that
      case is excluded by every allowed transition. */
  function EventFor(status: CaseStatus): CaseEventType
    requires status != Reported
  {
    match status
    case UnderReview => CaseUnderReview
    case Verified => CaseVerified
    case Active => CaseActivated
    case Resolved => CaseResolved
    case Cancelled => CaseCancelled
    case Rejected => CaseRejected
  }

  function Linked(row: CaseRow, report: ReportId): Result<CaseChange, CaseError> {
    if report in row.reports then Failure(DuplicateReportLink(row.id, report))
    else
      Success(CaseChange(
        row.(reports := row.reports + [report], version := row.version + 1),
        CaseEvent(CaseReportLinked, row.version + 1)))
  }

  function Transitioned(row: CaseRow, next: CaseStatus): Result<CaseChange, CaseError> {
    if !IsAllowedTransition(row.status, next) then Failure(InvalidTransition(row.status, next))
    else
      Success(CaseChange(
        row.(status := next, version := row.version + 1),
        CaseEvent(EventFor(next), row.version + 1)))
  }

  /** Starting review needs no reviewer; every other status change does. */
  predicate MayTransition(actor: Actor, to: CaseStatus) {
    to == UnderReview || actor.Reviewer?
  }

  function Reviewed(row: CaseRow, actor: Actor, to: CaseStatus): Result<CaseChange, CaseError> {
    if !MayTransition(actor, to) then Failure(NotAuthorized(to)) else Transitioned(row, to)
  }

  /** The way of a case that is confirmed and brought to an end. */
  const MAIN_PATH := [Reported, UnderReview, Verified, Active, Resolved]

  /** One step along the main path, a rejection out of review, or a cancellation after verification. */
  ghost predicate LeadsTo(from: CaseStatus, to: CaseStatus) {
    || (exists i :: 0 <= i < 4 && MAIN_PATH[i] == from && MAIN_PATH[i + 1] == to)
    || (from == UnderReview && to == Rejected)
    || ((from == Verified || from == Active) && to == Cancelled)
  }

  lemma AllowedIff(from: CaseStatus, to: CaseStatus)
    ensures IsAllowedTransition(from, to) <==> LeadsTo(from, to)
  {
    assert MAIN_PATH[0] == Reported && MAIN_PATH[1] == UnderReview && MAIN_PATH[2] == Verified;
    assert MAIN_PATH[3] == Active && MAIN_PATH[4] == Resolved;
  }

  /** The event that says a case has come to be in the status. */
  predicate Announces(kind: CaseEventType, status: CaseStatus) {
    match kind
    case CaseCreated => status == Reported
    case CaseReportLinked => false
    case CaseUnderReview => status == UnderReview
    case CaseVerified => status == Verified
    case CaseActivated => status == Active
    case CaseResolved => status == Resolved
    case CaseCancelled => status == Cancelled
    case CaseRejected => status == Rejected
  }

  lemma EventAnnounces(status: CaseStatus)
    requires status != Reported
    ensures Announces(EventFor(status), status)
  {
  }

  /** The aggregate held in memory while a request changes it. */
  class Case {
    const id: CaseId
    const incidentType: IncidentType
    var status: CaseStatus
    var reportIds: seq<ReportId>
    var version: nat

    ghost function Row(): CaseRow
      reads this
    {
      CaseRow(id, incidentType, status, reportIds, version)
    }

    constructor Reconstitute(row: CaseRow)
      ensures Row() == row
    {
      id, incidentType := row.id, row.incidentType;
      status, reportIds, version := row.status, row.reports, row.version;
    }

    method LinkReport(reportId: ReportId) returns (result: Result<CaseEvent, CaseError>)
      modifies this
      ensures match Linked(old(Row()), reportId)
              case Success(change) => Row() == change.row && result == Success(change.event)
              case Failure(error) => Row() == old(Row()) && result == Failure(error)
      ensures result.Success? <==> reportId !in old(reportIds)
      ensures result.Success? ==>
                && reportIds == old(reportIds) + [reportId]
                && status == old(status) && version == old(version) + 1
                && result.value == CaseEvent(CaseReportLinked, old(version) + 1)
      ensures result.Failure? ==> Row() == old(Row()) && result.error == DuplicateReportLink(id, reportId)
    {
      if reportId in reportIds {
        return Failure(DuplicateReportLink(id, reportId));
      }
      reportIds := reportIds + [reportId];
      version := version + 1;
      return Success(CaseEvent(CaseReportLinked, version));
    }

    method TransitionTo(next: CaseStatus) returns (result: Result<CaseEvent, CaseError>)
      modifies this
      ensures match Transitioned(old(Row()), next)
              case Success(change) => Row() == change.row && result == Success(change.event)
              case Failure(error) => Row() == old(Row()) && result == Failure(error)
      ensures result.Success? <==> LeadsTo(old(status), next)
      ensures result.Success? ==>
                && (status, reportIds, version) == (next, old(reportIds), old(version) + 1)
                && Announces(result.value.kind, next) && result.value.version == old(version) + 1
      ensures result.Failure? ==> Row() == old(Row()) && result.error == InvalidTransition(old(status), next)
    {
      AllowedIff(status, next);
      if !IsAllowedTransition(status, next) {
        return Failure(InvalidTransition(status, next));
      }
      EventAnnounces(next);
      status := next;
      version := version + 1;
      return Success(CaseEvent(EventFor(next), version));
    }
  }

  method ReviewCase(c: Case, actor: Actor, to: CaseStatus) returns (result: Result<CaseEvent, CaseError>)
    modifies c
    ensures match Reviewed(old(c.Row()), actor, to)
            case Success(change) => c.Row() == change.row && result == Success(change.event)
            case Failure(error) => c.Row() == old(c.Row()) && result == Failure(error)
    ensures result.Success? <==> (actor.Reviewer? || to == UnderReview) && LeadsTo(old(c.status), to)
    ensures result.Success? ==>
              && (c.status, c.reportIds, c.version) == (to, old(c.reportIds), old(c.version) + 1)
              && Announces(result.value.kind, to) && result.value.version == old(c.version) + 1
    ensures result.Failure? ==>
              && c.Row() == old(c.Row())
              && result.error == if actor.Reviewer? || to == UnderReview then InvalidTransition(old(c.status), to)
                                 else NotAuthorized(to)
  {
    if !MayTransition(actor, to) {
      return Failure(NotAuthorized(to));
    }
    result := c.TransitionTo(to);
  }
}
