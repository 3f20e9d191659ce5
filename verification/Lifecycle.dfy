/** Cases and alerts over whole runs. Any number of requests read a case or an alert, decide in
    memory, and write back in one transaction; a case is read in two queries, between which other
    requests may commit. A request may stop anywhere: it then simply takes no further step. */
module Lifecycle {
  import opened Prelude
  import opened Identifiers
  import opened Cases
  import opened CaseLog
  import opened Alerts

  type RequestId = nat

  /** A request between two of its database round trips. */
  datatype Request =
    | HalfLoaded(header: CaseRow)   // the case's own row; its reports are not read yet
    | CaseLoaded(row: CaseRow)
    | AlertLoaded(alert: Alert)

  /** What a committed transaction leaves on record. */
  datatype Happening =
    | CaseHappened(caseId: CaseId, entry: CaseEntry)
    | AlertIssued(alert: Alert, actor: Actor, key: Option<string>)
    | AlertWithdrawn(alertId: AlertId, version: nat, actor: Actor)

  type CaseTable = map<CaseId, CaseRow>
  type AlertTable = map<AlertId, Alert>
  type History = seq<Happening>

  datatype State = State(
    cases: CaseTable,
    alerts: AlertTable,
    keys: set<string>,
    history: History,
    requests: map<RequestId, Request>)

  const INIT := State(map[], map[], {}, [], map[])

  datatype AlertDraft = AlertDraft(
    id: AlertId, policy: AlertPolicy, severity: Severity, geography: string,
    fields: seq<AlertFieldValue>, issuedBy: Option<OrganizationId>)

  datatype Action =
    | Open(id: CaseId, incidentType: IncidentType, report: ReportId, actor: Actor)
    | ReadHeader(t: RequestId, caseId: CaseId)
    | ReadReports(t: RequestId)
    | Link(t: RequestId, report: ReportId, actor: Actor)
    | Review(t: RequestId, actor: Actor, to: CaseStatus)
    | Issue(t: RequestId, draft: AlertDraft, actor: Actor, key: Option<string>)
    | ReadAlert(t: RequestId, alertId: AlertId)
    | Cancel(t: RequestId, actor: Actor)

  /** A report belongs to at most one case; the link table has a unique constraint for it. */
  ghost predicate IsLinked(cases: CaseTable, report: ReportId) {
    exists id :: id in cases && report in cases[id].reports
  }

  predicate HoldsCase(s: State, t: RequestId) {
    t in s.requests && s.requests[t].CaseLoaded?
  }

  ghost predicate Enabled(s: State, action: Action) {
    match action
    case Open(id, _, _, _) => id !in s.cases
    case ReadHeader(t, id) => t !in s.requests && id in s.cases
    case ReadReports(t) => t in s.requests && s.requests[t].HalfLoaded? && s.requests[t].header.id in s.cases
    case Link(t, _, _) => HoldsCase(s, t)
    case Review(t, _, _) => HoldsCase(s, t)
    case Issue(t, draft, _, _) =>
      HoldsCase(s, t) && draft.id !in s.alerts && NewPolicy(draft.policy).Success?
    case ReadAlert(t, id) => t !in s.requests && id in s.alerts
    case Cancel(t, _) => t in s.requests && s.requests[t].AlertLoaded?
  }

  function Forget(s: State, t: RequestId): State {
    s.(requests := s.requests - {t})
  }

  function Recorded(s: State, row: CaseRow, entry: CaseEntry): State {
    s.(cases := s.cases[row.id := row], history := s.history + [CaseHappened(row.id, entry)])
  }

  /** The row still has the version the change started from. */
  predicate Unchanged(cases: CaseTable, change: CaseChange) {
    change.row.id in cases && cases[change.row.id].version == change.row.version - 1
  }

  ghost function AfterOpen(
    s: State, id: CaseId, incidentType: IncidentType, report: ReportId, actor: Actor): State
  {
    var change := Opened(id, incidentType, report);
    if IsLinked(s.cases, report) then s else Recorded(s, change.row, CaseEntry(change.event, actor))
  }

  /** Linking inserts the link and advances the version; the other columns stay as stored. */
  ghost function AfterLink(s: State, row: CaseRow, report: ReportId, actor: Actor): State {
    match Linked(row, report)
    case Failure(_) => s
    case Success(change) =>
      if IsLinked(s.cases, report) || !Unchanged(s.cases, change) then s
      else
        var stored := s.cases[row.id];
        Recorded(s, stored.(reports := stored.reports + [report], version := change.row.version),
                 CaseEntry(change.event, actor))
  }

  /** Reviewing writes the status and advances the version; the other columns stay as stored. */
  function AfterReview(s: State, row: CaseRow, actor: Actor, to: CaseStatus): State {
    match Reviewed(row, actor, to)
    case Failure(_) => s
    case Success(change) =>
      if !Unchanged(s.cases, change) then s
      else
        Recorded(s, s.cases[row.id].(status := change.row.status, version := change.row.version),
                 CaseEntry(change.event, actor))
  }

  function FromDraft(draft: AlertDraft, row: CaseRow, actor: Actor): Result<Alert, AlertError> {
    Issued(draft.id, row, draft.policy, draft.severity, draft.geography, draft.fields, actor, draft.issuedBy)
  }

  /** An idempotency key already used yields the first alert again and writes nothing. */
  function AfterIssue(s: State, row: CaseRow, draft: AlertDraft, actor: Actor, key: Option<string>): State {
    match FromDraft(draft, row, actor)
    case Failure(_) => s
    case Success(alert) =>
      if key.Some? && key.value in s.keys then s
      else
        s.(alerts := s.alerts[alert.id := alert],
           keys := if key.Some? then s.keys + {key.value} else s.keys,
           history := s.history + [AlertIssued(alert, actor, key)])
  }

  function AfterCancel(s: State, alert: Alert, actor: Actor): State {
    match CancelledBy(alert, actor)
    case Failure(_) => s
    case Success(next) =>
      if alert.id !in s.alerts || s.alerts[alert.id].version != next.version - 1 then s
      else
        s.(alerts := s.alerts[alert.id := s.alerts[alert.id].(status := next.status, version := next.version)],
           history := s.history + [AlertWithdrawn(alert.id, next.version, actor)])
  }

  ghost function Perform(s: State, action: Action): State
    requires Enabled(s, action)
  {
    match action
    case Open(id, incidentType, report, actor) => AfterOpen(s, id, incidentType, report, actor)
    case ReadHeader(t, id) => s.(requests := s.requests[t := HalfLoaded(s.cases[id].(reports := []))])
    case ReadReports(t) =>
      var header := s.requests[t].header;
      s.(requests := s.requests[t := CaseLoaded(header.(reports := s.cases[header.id].reports))])
    case Link(t, report, actor) => AfterLink(Forget(s, t), s.requests[t].row, report, actor)
    case Review(t, actor, to) => AfterReview(Forget(s, t), s.requests[t].row, actor, to)
    case Issue(t, draft, actor, key) => AfterIssue(Forget(s, t), s.requests[t].row, draft, actor, key)
    case ReadAlert(t, id) => s.(requests := s.requests[t := AlertLoaded(s.alerts[id])])
    case Cancel(t, actor) => AfterCancel(Forget(s, t), s.requests[t].alert, actor)
  }

  /** The state a run leads to, or `None` for a sequence that is not a run. */
  ghost function Execute(actions: seq<Action>): Option<State> {
    if |actions| == 0 then Some(INIT)
    else
      match Execute(actions[..|actions| - 1])
      case None => None
      case Some(s) =>
        var last := actions[|actions| - 1];
        if Enabled(s, last) then Some(Perform(s, last)) else None
  }

  /** The events of one case, in the order they were committed. */
  function LogOf(history: History, id: CaseId): seq<CaseEntry> {
    if |history| == 0 then []
    else
      var front, last := LogOf(history[..|history| - 1], id), history[|history| - 1];
      if last.CaseHappened? && last.caseId == id then front + [last.entry] else front
  }

  // ---- The invariant ----

  /** The history holds the whole story of every case. */
  ghost predicate CaseInv(cases: CaseTable, history: History) {
    && (forall id :: id in cases ==>
          cases[id].id == id && Agrees(cases[id], LogOf(history, id)) && Distinct(cases[id].reports))
    && (forall h :: h in history && h.CaseHappened? ==> h.caseId in cases)
  }

  ghost predicate ReportsApart(cases: CaseTable) {
    forall id, other :: id in cases && other in cases && id != other ==>
      forall report :: report in cases[id].reports ==> report !in cases[other].reports
  }

  /** A reviewer's verification of the case stands in the history before position `i`. */
  ghost predicate VerifiedBefore(history: History, i: nat, id: CaseId)
    requires i <= |history|
  {
    exists j :: 0 <= j < i && history[j].CaseHappened? && history[j].caseId == id && IsVerification(history[j].entry)
  }

  ghost predicate SafeAlert(alert: Alert, actor: Actor) {
    && SafePolicy(alert.policy)
    && (forall k :: 0 <= k < |alert.fields| ==> alert.fields[k].field in alert.policy.allowlist)
    && Distinct(FieldsOf(alert.fields))
    && (!AdmitsInternalOnlyFields(alert.policy.visibility) ==> actor.Reviewer?)
  }

  ghost predicate IssueInv(history: History, keys: set<string>) {
    && (forall i :: 0 <= i < |history| && history[i].AlertIssued? ==>
          SafeAlert(history[i].alert, history[i].actor) && VerifiedBefore(history, i, history[i].alert.caseId))
    && (forall h :: h in history && h.AlertIssued? && h.key.Some? ==> h.key.value in keys)
    && (forall i, j :: 0 <= i < j < |history| && history[i].AlertIssued? && history[j].AlertIssued? ==>
          history[i].alert.id != history[j].alert.id && (history[i].key.Some? ==> history[i].key != history[j].key))
  }

  /** An alert is as it was issued, or withdrawn once since. */
  ghost predicate AlertInv(alerts: AlertTable, history: History) {
    && (forall h :: h in history && h.AlertIssued? ==> h.alert.id in alerts)
    && (forall h :: h in history && h.AlertWithdrawn? ==>
          h.alertId in alerts && alerts[h.alertId].status == AlertCancelled && h.version == 2 && h.actor.Reviewer?)
    && (forall id :: id in alerts ==>
          && alerts[id].id == id
          && alerts[id].version == (if alerts[id].status == AlertActive then 1 else 2)
          && exists h :: h in history && h.AlertIssued? && h.alert == alerts[id].(status := AlertActive, version := 1))
    && (forall i, j :: 0 <= i < j < |history| && history[i].AlertWithdrawn? && history[j].AlertWithdrawn? ==>
          history[i].alertId != history[j].alertId)
  }

  /** A header read earlier: at the stored version it is what is stored, and whatever version it shows,
      a status past verification was reached through a reviewer. */
  ghost predicate HeaderOk(cases: CaseTable, history: History, row: CaseRow) {
    && row.id in cases
    && row.version <= cases[row.id].version
    && (row.version == cases[row.id].version ==> row.(reports := []) == cases[row.id].(reports := []))
    && (IsPastVerification(row.status) ==> VerifiedBefore(history, |history|, row.id))
  }

  ghost predicate RequestOk(cases: CaseTable, alerts: AlertTable, history: History, request: Request) {
    match request
    case HalfLoaded(header) => HeaderOk(cases, history, header)
    case CaseLoaded(row) =>
      && HeaderOk(cases, history, row)
      && (row.version == cases[row.id].version ==> row == cases[row.id])
    case AlertLoaded(alert) =>
      && alert.id in alerts
      && alert.version <= alerts[alert.id].version
      && (alert.version == alerts[alert.id].version ==> alert == alerts[alert.id])
  }

  ghost predicate RequestInv(s: State) {
    forall t :: t in s.requests ==> RequestOk(s.cases, s.alerts, s.history, s.requests[t])
  }

  ghost predicate Inv(s: State) {
    && CaseInv(s.cases, s.history)
    && ReportsApart(s.cases)
    && IssueInv(s.history, s.keys)
    && AlertInv(s.alerts, s.history)
    && RequestInv(s)
  }
}
