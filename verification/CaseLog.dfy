/** The persisted events of one case determine its status, its version and how many reports it has. */
module CaseLog {
  import opened Prelude
  import opened Identifiers
  import opened Cases
  import opened Alerts

  /** A persisted event, with who caused it. */
  datatype CaseEntry = CaseEntry(event: CaseEvent, actor: Actor)

  /** What the events of a case say about it. */
  datatype Tally = Tally(status: CaseStatus, reports: nat, version: nat)

  /** The status a case is in after the event, for events that change it. */
  function StatusAfter(kind: CaseEventType): Option<CaseStatus> {
    match kind
    case CaseUnderReview => Some(UnderReview)
    case CaseVerified => Some(Verified)
    case CaseActivated => Some(Active)
    case CaseResolved => Some(Resolved)
    case CaseCancelled => Some(Cancelled)
    case CaseRejected => Some(Rejected)
    case _ => None
  }

  /** One entry applied to a tally; `None` when the entry could not have followed it. */
  function Step(tally: Tally, entry: CaseEntry): Option<Tally> {
    if entry.event.version != tally.version + 1 then None
    else if entry.event.kind == CaseReportLinked then
      Some(Tally(tally.status, tally.reports + 1, entry.event.version))
    else
      match StatusAfter(entry.event.kind)
      case None => None
      case Some(to) =>
        if IsAllowedTransition(tally.status, to) && MayTransition(entry.actor, to)
        then Some(Tally(to, tally.reports, entry.event.version)) else None
  }

  function Replay(log: seq<CaseEntry>): Option<Tally> {
    if |log| == 0 then None
    else if |log| == 1 then
      if log[0].event == CaseEvent(CaseCreated, 1) then Some(Tally(Reported, 1, 1)) else None
    else
      match Replay(log[..|log| - 1])
      case None => None
      case Some(tally) => Step(tally, log[|log| - 1])
  }

  function TallyOf(row: CaseRow): Tally {
    Tally(row.status, |row.reports|, row.version)
  }

  ghost predicate Agrees(row: CaseRow, log: seq<CaseEntry>) {
    Replay(log) == Some(TallyOf(row))
  }

  lemma OpeningAgrees(id: CaseId, incidentType: IncidentType, report: ReportId, actor: Actor)
    ensures var change := Opened(id, incidentType, report);
            Agrees(change.row, [CaseEntry(change.event, actor)])
  {
  }

  /** Linking writes an entry that replays to the row it writes. */
  lemma LinkReplays(row: CaseRow, log: seq<CaseEntry>, report: ReportId, actor: Actor)
    requires Agrees(row, log) && Linked(row, report).Success?
    ensures var change := Linked(row, report).value;
            Agrees(change.row, log + [CaseEntry(change.event, actor)])
  {
    assert (log + [CaseEntry(Linked(row, report).value.event, actor)])[..|log|] == log;
  }

  /** Reviewing writes an entry that replays to the row it writes. */
  lemma ReviewReplays(row: CaseRow, log: seq<CaseEntry>, actor: Actor, to: CaseStatus)
    requires Agrees(row, log) && Reviewed(row, actor, to).Success?
    ensures var change := Reviewed(row, actor, to).value;
            Agrees(change.row, log + [CaseEntry(change.event, actor)])
  {
    assert (log + [CaseEntry(Reviewed(row, actor, to).value.event, actor)])[..|log|] == log;
  }

  /** How many status changes lead to `status`; a case is cancelled after two of them or after three. */
  predicate IsDepth(status: CaseStatus, depth: int) {
    match status
    case Reported => depth == 0
    case UnderReview => depth == 1
    case Verified => depth == 2
    case Rejected => depth == 2
    case Active => depth == 3
    case Resolved => depth == 4
    case Cancelled => depth == 3 || depth == 4
  }

  function StatusChanges(log: seq<CaseEntry>): nat {
    if |log| == 0 then 0
    else StatusChanges(log[..|log| - 1]) + if StatusAfter(log[|log| - 1].event.kind).Some? then 1 else 0
  }

  /** However links and reviews interleave, the version counts the reports and the status changes, of
      which there are at most four. */
  lemma {:induction false} Accounting(log: seq<CaseEntry>)
    requires Replay(log).Some?
    ensures var tally := Replay(log).value;
            && tally.reports >= 1
            && |log| == tally.version == tally.reports + StatusChanges(log)
            && IsDepth(tally.status, StatusChanges(log))
    ensures StatusChanges(log) <= 4
  {
    if |log| > 1 {
      Accounting(log[..|log| - 1]);
    } else {
      assert StatusChanges(log[..0]) == 0;
    }
  }

  /** Event versions are 1, 2, ..., version: no gap, no repeat. */
  lemma {:induction false} VersionsAreGapFree(log: seq<CaseEntry>, i: nat)
    requires Replay(log).Some? && i < |log|
    ensures log[i].event.version == i + 1
  {
    Accounting(log);
    if |log| > 1 {
      Accounting(log[..|log| - 1]);
      if i < |log| - 1 {
        VersionsAreGapFree(log[..|log| - 1], i);
      }
    }
  }

  predicate IsVerification(entry: CaseEntry) {
    entry.event.kind == CaseVerified && entry.actor.Reviewer?
  }

  ghost predicate HasBeenVerified(log: seq<CaseEntry>) {
    exists i :: 0 <= i < |log| && IsVerification(log[i])
  }

  /** The statuses a case can only be in after a reviewer verified it. */
  predicate IsPastVerification(status: CaseStatus) {
    IsVerifiedOrLater(status) || status == Cancelled
  }

  /** A case has a reviewer's verification on record exactly when it is verified, active, resolved or cancelled. */
  lemma {:induction false} VerifiedIffRecorded(log: seq<CaseEntry>)
    requires Replay(log).Some?
    ensures HasBeenVerified(log) <==> IsPastVerification(Replay(log).value.status)
  {
    if |log| > 1 {
      var front, last := log[..|log| - 1], log[|log| - 1];
      VerifiedIffRecorded(front);
      if HasBeenVerified(front) {
        var i :| 0 <= i < |front| && IsVerification(front[i]);
        assert IsVerification(log[i]);
      }
      if IsVerification(last) {
        assert IsVerification(log[|log| - 1]);
      } else if HasBeenVerified(log) {
        var i :| 0 <= i < |log| && IsVerification(log[i]);
        assert IsVerification(front[i]);
      }
    }
  }

  /** The events by which a reviewer decides about a case. */
  predicate IsDecision(kind: CaseEventType) {
    || kind == CaseVerified || kind == CaseActivated || kind == CaseResolved
    || kind == CaseCancelled || kind == CaseRejected
  }

  /** Every decision on record is a reviewer's. */
  lemma {:induction false} DecisionsAreReviewers(log: seq<CaseEntry>, i: nat)
    requires Replay(log).Some? && i < |log| && IsDecision(log[i].event.kind)
    ensures log[i].actor.Reviewer?
  {
    if |log| > 1 && i < |log| - 1 {
      DecisionsAreReviewers(log[..|log| - 1], i);
    }
  }
}
