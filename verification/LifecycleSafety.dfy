/** What every run of the case and alert life cycle keeps, and what must already have happened
    for an alert to exist. */
module LifecycleSafety {
  import opened Prelude
  import opened Identifiers
  import opened Cases
  import opened CaseLog
  import opened Alerts
  import opened Lifecycle

  // ---- The history of one case ----

  lemma LogOfSnoc(history: History, h: Happening, id: CaseId)
    ensures LogOf(history + [h], id) ==
            if h.CaseHappened? && h.caseId == id then LogOf(history, id) + [h.entry] else LogOf(history, id)
  {
    assert (history + [h])[..|history|] == history;
  }

  /** A case nothing happened to has no events. */
  lemma {:induction false} UntouchedLog(history: History, id: CaseId)
    requires forall h :: h in history && h.CaseHappened? ==> h.caseId != id
    ensures LogOf(history, id) == []
  {
    if |history| > 0 {
      UntouchedLog(history[..|history| - 1], id);
    }
  }

  /** A verification is in a case's own events exactly when it is in the common history. */
  lemma {:induction false} VerifiedInLogIff(history: History, id: CaseId)
    ensures HasBeenVerified(LogOf(history, id)) <==> VerifiedBefore(history, |history|, id)
  {
    if |history| > 0 {
      var n := |history| - 1;
      var front, last := history[..n], history[n];
      VerifiedInLogIff(front, id);
      assert history == front + [last];
      LogOfSnoc(front, last, id);
      VerifiedSnoc(front, last, id);
      if last.CaseHappened? && last.caseId == id {
        SnocVerified(LogOf(front, id), last.entry);
      }
    }
  }

  lemma VerifiedSnoc(history: History, h: Happening, id: CaseId)
    ensures VerifiedBefore(history + [h], |history| + 1, id) <==>
            VerifiedBefore(history, |history|, id) || (h.CaseHappened? && h.caseId == id && IsVerification(h.entry))
  {
    var longer := history + [h];
    assert longer[|history|] == h;
    assert forall j :: 0 <= j < |history| ==> longer[j] == history[j];
    if VerifiedBefore(history, |history|, id) {
      var j :| 0 <= j < |history| && history[j].CaseHappened? && history[j].caseId == id &&
               IsVerification(history[j].entry);
      assert IsVerification(longer[j].entry);
    }
    if h.CaseHappened? && h.caseId == id && IsVerification(h.entry) {
      assert IsVerification(longer[|history|].entry);
    }
  }

  lemma SnocVerified(log: seq<CaseEntry>, entry: CaseEntry)
    ensures HasBeenVerified(log + [entry]) <==> HasBeenVerified(log) || IsVerification(entry)
  {
    var longer := log + [entry];
    assert longer[|log|] == entry;
    assert forall j :: 0 <= j < |log| ==> longer[j] == log[j];
    if HasBeenVerified(log) {
      var j :| 0 <= j < |log| && IsVerification(log[j]);
      assert IsVerification(longer[j]);
    }
  }

  /** What is verified stays verified as the history grows. */
  lemma VerifiedStays(history: History, h: Happening, i: nat, id: CaseId)
    requires i <= |history|
    ensures VerifiedBefore(history, i, id) <==> VerifiedBefore(history + [h], i, id)
  {
    assert forall j :: 0 <= j < |history| ==> (history + [h])[j] == history[j];
  }

  // ---- Every step keeps the invariant ----

  lemma StoredCaseVerified(cases: CaseTable, history: History, id: CaseId)
    requires CaseInv(cases, history) && id in cases
    ensures IsPastVerification(cases[id].status) ==> VerifiedBefore(history, |history|, id)
  {
    VerifiedIffRecorded(LogOf(history, id));
    VerifiedInLogIff(history, id);
  }

  /** A new happening that issues nothing keeps what is known of issued alerts. */
  lemma IssueInvGrows(history: History, keys: set<string>, h: Happening)
    requires IssueInv(history, keys) && !h.AlertIssued?
    ensures IssueInv(history + [h], keys)
  {
    var longer := history + [h];
    forall i | 0 <= i < |longer| && longer[i].AlertIssued?
      ensures SafeAlert(longer[i].alert, longer[i].actor) && VerifiedBefore(longer, i, longer[i].alert.caseId)
    {
      VerifiedStays(history, h, i, history[i].alert.caseId);
    }
  }

  lemma AlertInvGrows(alerts: AlertTable, history: History, h: Happening)
    requires AlertInv(alerts, history) && h.CaseHappened?
    ensures AlertInv(alerts, history + [h])
  {
    var longer := history + [h];
    forall id | id in alerts
      ensures exists g :: g in longer && g.AlertIssued? && g.alert == alerts[id].(status := AlertActive, version := 1)
    {
      var g :| g in history && g.AlertIssued? && g.alert == alerts[id].(status := AlertActive, version := 1);
      assert g in longer;
    }
  }

  lemma RecordedCases(cases: CaseTable, history: History, row: CaseRow, entry: CaseEntry)
    requires CaseInv(cases, history)
    requires Agrees(row, LogOf(history, row.id) + [entry]) && Distinct(row.reports)
    ensures CaseInv(cases[row.id := row], history + [CaseHappened(row.id, entry)])
  {
    hide Agrees, LogOf, Distinct;
    var h := CaseHappened(row.id, entry);
    forall id | id in cases[row.id := row] ensures Agrees(cases[row.id := row][id], LogOf(history + [h], id)) {
      LogOfSnoc(history, h, id);
    }
  }

  lemma RecordedRequest(
    cases: CaseTable, alerts: AlertTable, history: History, request: Request, row: CaseRow, entry: CaseEntry)
    requires RequestOk(cases, alerts, history, request)
    requires row.id in cases ==> row.version > cases[row.id].version
    ensures RequestOk(cases[row.id := row], alerts, history + [CaseHappened(row.id, entry)], request)
  {
    if !request.AlertLoaded? {
      var id := if request.HalfLoaded? then request.header.id else request.row.id;
      VerifiedSnoc(history, CaseHappened(row.id, entry), id);
    }
  }

  /** Committing one change of one case. */
  lemma RecordedKeeps(s: State, row: CaseRow, entry: CaseEntry)
    requires Inv(s)
    requires row.id in s.cases ==> row.version > s.cases[row.id].version
    requires Agrees(row, LogOf(s.history, row.id) + [entry]) && Distinct(row.reports)
    requires ReportsApart(s.cases[row.id := row])
    ensures Inv(Recorded(s, row, entry))
  {
    hide CaseInv, ReportsApart, IssueInv, AlertInv, RequestOk, Agrees, LogOf, Distinct;
    var h := CaseHappened(row.id, entry);
    RecordedCases(s.cases, s.history, row, entry);
    IssueInvGrows(s.history, s.keys, h);
    AlertInvGrows(s.alerts, s.history, h);
    forall t | t in s.requests ensures RequestOk(s.cases[row.id := row], s.alerts, s.history + [h], s.requests[t]) {
      RecordedRequest(s.cases, s.alerts, s.history, s.requests[t], row, entry);
    }
  }

  lemma ForgetKeeps(s: State, t: RequestId)
    requires Inv(s)
    ensures Inv(Forget(s, t))
  {
  }

  lemma OpenKeeps(s: State, id: CaseId, incidentType: IncidentType, report: ReportId, actor: Actor)
    requires Inv(s) && id !in s.cases
    ensures Inv(AfterOpen(s, id, incidentType, report, actor))
  {
    if !IsLinked(s.cases, report) {
      var change := Opened(id, incidentType, report);
      var entry := CaseEntry(change.event, actor);
      UntouchedLog(s.history, id);
      OpeningAgrees(id, incidentType, report, actor);
      assert [] + [entry] == [entry];
      RecordedKeeps(s, change.row, entry);
    }
  }

  lemma ReadKeeps(s: State, t: RequestId, request: Request)
    requires Inv(s) && RequestOk(s.cases, s.alerts, s.history, request)
    ensures Inv(s.(requests := s.requests[t := request]))
  {
  }

  lemma ReadHeaderKeeps(s: State, t: RequestId, id: CaseId)
    requires Inv(s) && Enabled(s, ReadHeader(t, id))
    ensures Inv(Perform(s, ReadHeader(t, id)))
  {
    StoredCaseVerified(s.cases, s.history, id);
    ReadKeeps(s, t, HalfLoaded(s.cases[id].(reports := [])));
  }

  /** Even a torn read is harmless: a row that shows the stored version is the stored row. */
  lemma ReadReportsKeeps(s: State, t: RequestId)
    requires Inv(s) && Enabled(s, ReadReports(t))
    ensures Inv(Perform(s, ReadReports(t)))
  {
    var header := s.requests[t].header;
    assert RequestOk(s.cases, s.alerts, s.history, s.requests[t]);
    var row := header.(reports := s.cases[header.id].reports);
    assert row.(reports := []) == header.(reports := []);
    ReadKeeps(s, t, CaseLoaded(row));
  }

  lemma LinkKeeps(s: State, row: CaseRow, report: ReportId, actor: Actor)
    requires Inv(s) && RequestOk(s.cases, s.alerts, s.history, CaseLoaded(row))
    ensures Inv(AfterLink(s, row, report, actor))
  {
    if AfterLink(s, row, report, actor) != s {
      var stored, change := s.cases[row.id], Linked(row, report).value;
      LinkReplays(stored, LogOf(s.history, row.id), report, actor);
      RecordedKeeps(s, change.row, CaseEntry(change.event, actor));
    }
  }

  lemma ReviewKeeps(s: State, row: CaseRow, actor: Actor, to: CaseStatus)
    requires Inv(s) && RequestOk(s.cases, s.alerts, s.history, CaseLoaded(row))
    ensures Inv(AfterReview(s, row, actor, to))
  {
    if AfterReview(s, row, actor, to) != s {
      var stored, change := s.cases[row.id], Reviewed(row, actor, to).value;
      ReviewReplays(stored, LogOf(s.history, row.id), actor, to);
      RecordedKeeps(s, change.row, CaseEntry(change.event, actor));
    }
  }

  /** What an issued alert owes to the checks it passed. */
  lemma IssuedIsSafe(row: CaseRow, draft: AlertDraft, actor: Actor)
    requires NewPolicy(draft.policy).Success? && FromDraft(draft, row, actor).Success?
    ensures SafeAlert(FromDraft(draft, row, actor).value, actor)
    ensures IsVerifiedOrLater(row.status)
  {
    PolicyExistsIffSafe(draft.policy);
    FieldsAcceptedIff(draft.policy, draft.fields);
  }

  /** An issue either changes nothing or adds one safe alert for a case verified before. */
  lemma IssueEffect(s: State, row: CaseRow, draft: AlertDraft, actor: Actor, key: Option<string>)
    requires RequestOk(s.cases, s.alerts, s.history, CaseLoaded(row)) && NewPolicy(draft.policy).Success?
    ensures var after := AfterIssue(s, row, draft, actor, key);
            || after == s
            || (&& FromDraft(draft, row, actor).Success?
                && var alert := FromDraft(draft, row, actor).value;
                && alert.id == draft.id && alert.status == AlertActive && alert.version == 1
                && SafeAlert(alert, actor) && VerifiedBefore(s.history, |s.history|, alert.caseId)
                && (key.Some? ==> key.value !in s.keys)
                && after == s.(
                     alerts := s.alerts[alert.id := alert],
                     keys := if key.Some? then s.keys + {key.value} else s.keys,
                     history := s.history + [AlertIssued(alert, actor, key)]))
  {
    hide NewPolicy, SafeAlert, FieldComplaint;
    if FromDraft(draft, row, actor).Success? {
      IssuedIsSafe(row, draft, actor);
    }
  }

  lemma IssueKeeps(s: State, row: CaseRow, draft: AlertDraft, actor: Actor, key: Option<string>)
    requires Inv(s) && RequestOk(s.cases, s.alerts, s.history, CaseLoaded(row))
    requires draft.id !in s.alerts && NewPolicy(draft.policy).Success?
    ensures Inv(AfterIssue(s, row, draft, actor, key))
  {
    hide AfterIssue, FromDraft, NewPolicy, CaseInv, IssueInv, AlertInv, ReportsApart, RequestInv, SafeAlert,
      VerifiedBefore, RequestOk;
    IssueEffect(s, row, draft, actor, key);
    var after := AfterIssue(s, row, draft, actor, key);
    if after != s {
      var alert := FromDraft(draft, row, actor).value;
      var h := AlertIssued(alert, actor, key);
      CaseInvGrows(s.cases, s.history, h);
      IssueExtends(s.history, s.keys, s.alerts, alert, actor, key);
      AlertExtends(s.alerts, s.history, h);
      RequestsOutlive(s, after, h);
    }
  }

  lemma CaseInvGrows(cases: CaseTable, history: History, h: Happening)
    requires CaseInv(cases, history) && !h.CaseHappened?
    ensures CaseInv(cases, history + [h])
  {
    forall id | id in cases ensures Agrees(cases[id], LogOf(history + [h], id)) {
      LogOfSnoc(history, h, id);
    }
  }

  lemma IssueExtends(
    history: History, keys: set<string>, alerts: AlertTable, alert: Alert, actor: Actor, key: Option<string>)
    requires IssueInv(history, keys) && AlertInv(alerts, history) && alert.id !in alerts
    requires SafeAlert(alert, actor) && VerifiedBefore(history, |history|, alert.caseId)
    requires key.Some? ==> key.value !in keys
    ensures IssueInv(history + [AlertIssued(alert, actor, key)], if key.Some? then keys + {key.value} else keys)
  {
    hide SafeAlert, VerifiedBefore;
    var h := AlertIssued(alert, actor, key);
    var longer := history + [h];
    forall i | 0 <= i < |longer| && longer[i].AlertIssued?
      ensures SafeAlert(longer[i].alert, longer[i].actor) && VerifiedBefore(longer, i, longer[i].alert.caseId)
    {
      VerifiedStays(history, h, i, longer[i].alert.caseId);
    }
    forall i, j | 0 <= i < j < |longer| && longer[i].AlertIssued? && longer[j].AlertIssued?
      ensures longer[i].alert.id != longer[j].alert.id && (longer[i].key.Some? ==> longer[i].key != longer[j].key)
    {
      assert longer[i] == history[i] && history[i] in history;
    }
  }

  lemma AlertExtends(alerts: AlertTable, history: History, h: Happening)
    requires AlertInv(alerts, history) && h.AlertIssued? && h.alert.id !in alerts
    requires h.alert.status == AlertActive && h.alert.version == 1
    ensures AlertInv(alerts[h.alert.id := h.alert], history + [h])
  {
    var after, longer := alerts[h.alert.id := h.alert], history + [h];
    forall id | id in after
      ensures exists g :: g in longer && g.AlertIssued? && g.alert == after[id].(status := AlertActive, version := 1)
    {
      if id == h.alert.id {
        assert h in longer;
      } else {
        var g :| g in history && g.AlertIssued? && g.alert == alerts[id].(status := AlertActive, version := 1);
        assert g in longer;
      }
    }
  }

  /** Requests in memory survive a step that leaves the cases alone and only advances alerts. */
  lemma RequestsOutlive(s: State, after: State, h: Happening)
    requires RequestInv(s) && after.cases == s.cases && after.requests == s.requests
    requires after.history == s.history + [h]
    requires forall id :: id in s.alerts ==>
               id in after.alerts &&
               (after.alerts[id] == s.alerts[id] || after.alerts[id].version > s.alerts[id].version)
    ensures RequestInv(after)
  {
    forall t | t in s.requests ensures RequestOk(after.cases, after.alerts, after.history, s.requests[t]) {
      assert RequestOk(s.cases, s.alerts, s.history, s.requests[t]);
      if !s.requests[t].AlertLoaded? {
        var id := if s.requests[t].HalfLoaded? then s.requests[t].header.id else s.requests[t].row.id;
        VerifiedSnoc(s.history, h, id);
      }
    }
  }

  /** A cancellation either changes nothing or withdraws an alert that is still as it was issued. */
  lemma CancelEffect(s: State, alert: Alert, actor: Actor)
    requires AlertInv(s.alerts, s.history) && alert.id in s.alerts
    requires alert.version == s.alerts[alert.id].version ==> alert == s.alerts[alert.id]
    ensures var after := AfterCancel(s, alert, actor);
            || after == s
            || (&& s.alerts[alert.id].status == AlertActive && s.alerts[alert.id].version == 1 && actor.Reviewer?
                && after == s.(
                     alerts := s.alerts[alert.id := s.alerts[alert.id].(status := AlertCancelled, version := 2)],
                     history := s.history + [AlertWithdrawn(alert.id, 2, actor)]))
  {
  }

  lemma CancelKeeps(s: State, alert: Alert, actor: Actor)
    requires Inv(s) && RequestOk(s.cases, s.alerts, s.history, AlertLoaded(alert))
    ensures Inv(AfterCancel(s, alert, actor))
  {
    hide AfterCancel, CaseInv, IssueInv, AlertInv, ReportsApart, RequestInv;
    CancelEffect(s, alert, actor);
    var after := AfterCancel(s, alert, actor);
    if after != s {
      var h := AlertWithdrawn(alert.id, 2, actor);
      CaseInvGrows(s.cases, s.history, h);
      IssueInvGrows(s.history, s.keys, h);
      WithdrawExtends(s.alerts, s.history, alert.id, actor);
      RequestsOutlive(s, after, h);
    }
  }

  lemma WithdrawExtends(alerts: AlertTable, history: History, id: AlertId, actor: Actor)
    requires AlertInv(alerts, history) && id in alerts && alerts[id].status == AlertActive && actor.Reviewer?
    ensures AlertInv(alerts[id := alerts[id].(status := AlertCancelled, version := 2)],
                     history + [AlertWithdrawn(id, 2, actor)])
  {
    var after := alerts[id := alerts[id].(status := AlertCancelled, version := 2)];
    var longer := history + [AlertWithdrawn(id, 2, actor)];
    forall a | a in after
      ensures exists g :: g in longer && g.AlertIssued? && g.alert == after[a].(status := AlertActive, version := 1)
    {
      var g :| g in history && g.AlertIssued? && g.alert == alerts[a].(status := AlertActive, version := 1);
      assert g in longer && g.alert == after[a].(status := AlertActive, version := 1);
    }
    forall i, j | 0 <= i < j < |longer| && longer[i].AlertWithdrawn? && longer[j].AlertWithdrawn?
      ensures longer[i].alertId != longer[j].alertId
    {
      assert longer[i] == history[i] && history[i] in history;
    }
  }

  lemma StepKeeps(s: State, action: Action)
    requires Inv(s) && Enabled(s, action)
    ensures Inv(Perform(s, action))
  {
    match action {
      case Open(id, incidentType, report, actor) => OpenKeeps(s, id, incidentType, report, actor);
      case ReadHeader(t, id) => ReadHeaderKeeps(s, t, id);
      case ReadReports(t) => ReadReportsKeeps(s, t);
      case Link(t, report, actor) =>
        ForgetKeeps(s, t);
        LinkKeeps(Forget(s, t), s.requests[t].row, report, actor);
      case Review(t, actor, to) =>
        ForgetKeeps(s, t);
        ReviewKeeps(Forget(s, t), s.requests[t].row, actor, to);
      case Issue(t, draft, actor, key) =>
        ForgetKeeps(s, t);
        IssueKeeps(Forget(s, t), s.requests[t].row, draft, actor, key);
      case ReadAlert(t, id) => ReadKeeps(s, t, AlertLoaded(s.alerts[id]));
      case Cancel(t, actor) =>
        ForgetKeeps(s, t);
        CancelKeeps(Forget(s, t), s.requests[t].alert, actor);
    }
  }

  lemma {:induction false} ReachableInv(actions: seq<Action>)
    requires Execute(actions).Some?
    ensures Inv(Execute(actions).value)
  {
    if |actions| > 0 {
      var front := actions[..|actions| - 1];
      ReachableInv(front);
      hide Inv, Enabled, Perform;
      StepKeeps(Execute(front).value, actions[|actions| - 1]);
    }
  }
}
