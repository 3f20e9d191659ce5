/** The claims about case and alert runs that follow from the invariant. */
module LifecycleTheorems {
  import opened Prelude
  import opened Identifiers
  import opened Cases
  import opened CaseLog
  import opened Alerts
  import opened Lifecycle
  import opened LifecycleSafety

  // ---- Cases ----

  lemma StoredCase(s: State, id: CaseId)
    requires Inv(s) && id in s.cases
    ensures s.cases[id].id == id && Distinct(s.cases[id].reports)
    ensures Replay(LogOf(s.history, id)) == Some(TallyOf(s.cases[id]))
  {
  }

  /** Exact accounting of every stored case of every run: its reports are distinct and at least one, its version is
      their number plus the status changes made, of which there are at most four, and its events are gap-free. */
  lemma CaseAccounting(actions: seq<Action>, id: CaseId)
    requires Execute(actions).Some? && id in Execute(actions).value.cases
    ensures var s := Execute(actions).value;
            var row, log := s.cases[id], LogOf(s.history, id);
            && |row.reports| >= 1
            && Distinct(row.reports)
            && IsDepth(row.status, row.version - |row.reports|)
            && row.version - |row.reports| == StatusChanges(log) <= 4
            && |log| == row.version
            && forall i :: 0 <= i < |log| ==> log[i].event.version == i + 1
  {
    hide Execute, LogOf, Inv, Agrees, Replay, StatusChanges;
    ReachableInv(actions);
    var s := Execute(actions).value;
    var log := LogOf(s.history, id);
    StoredCase(s, id);
    Accounting(log);
    forall i | 0 <= i < |log| ensures log[i].event.version == i + 1 {
      VersionsAreGapFree(log, i);
    }
  }

  lemma {:induction false} HappenedIsLogged(history: History, i: nat)
    requires i < |history| && history[i].CaseHappened?
    ensures history[i].entry in LogOf(history, history[i].caseId)
  {
    if i < |history| - 1 {
      HappenedIsLogged(history[..|history| - 1], i);
    }
  }

  lemma HistoryNamesCases(s: State, i: nat)
    requires Inv(s) && i < |s.history| && s.history[i].CaseHappened?
    ensures s.history[i].caseId in s.cases
  {
    assert s.history[i] in s.history;
  }

  /** In every run, whatever was verified, activated, resolved, cancelled or rejected, a reviewer did it. */
  lemma ReviewersDecide(actions: seq<Action>, i: nat)
    requires Execute(actions).Some? && i < |Execute(actions).value.history|
    requires Execute(actions).value.history[i].CaseHappened?
    requires Execute(actions).value.history[i].entry.event.kind in
             {CaseVerified, CaseActivated, CaseResolved, CaseCancelled, CaseRejected}
    ensures Execute(actions).value.history[i].entry.actor.Reviewer?
  {
    hide Execute, Inv, LogOf, Replay;
    ReachableInv(actions);
    var s := Execute(actions).value;
    var id := s.history[i].caseId;
    HappenedIsLogged(s.history, i);
    HistoryNamesCases(s, i);
    StoredCase(s, id);
    var log := LogOf(s.history, id);
    var k :| 0 <= k < |log| && log[k] == s.history[i].entry;
    DecisionsAreReviewers(log, k);
  }

  /** A report is evidence for at most one case. */
  lemma ReportsBelongToOneCase(actions: seq<Action>, id: CaseId, other: CaseId, report: ReportId)
    requires Execute(actions).Some?
    requires id in Execute(actions).value.cases && other in Execute(actions).value.cases
    requires report in Execute(actions).value.cases[id].reports && report in Execute(actions).value.cases[other].reports
    ensures id == other
  {
    ReachableInv(actions);
    hide Execute, LogOf;
  }

  /** A change that is written leaves exactly the row the request computed from what it had read, although the
      read took two queries and the write names only the columns it changes. */
  lemma WrittenRowIsTheAnswer(actions: seq<Action>, t: RequestId, report: ReportId, actor: Actor, to: CaseStatus)
    requires Execute(actions).Some? && HoldsCase(Execute(actions).value, t)
    ensures var s := Execute(actions).value;
            var row := s.requests[t].row;
            && (Perform(s, Link(t, report, actor)).cases != s.cases ==>
                  Linked(row, report).Success? &&
                  Perform(s, Link(t, report, actor)).cases == s.cases[row.id := Linked(row, report).value.row])
            && (Perform(s, Review(t, actor, to)).cases != s.cases ==>
                  Reviewed(row, actor, to).Success? &&
                  Perform(s, Review(t, actor, to)).cases == s.cases[row.id := Reviewed(row, actor, to).value.row])
  {
    hide Execute, Inv;
    ReachableInv(actions);
    HeldCaseVerified(Execute(actions).value, t);
  }

  // ---- Alerts ----

  /** Wherever an alert was issued, a reviewer had verified its case before; a community or public alert was
      issued by a reviewer; and its fields repeat nothing, come from the policy's list, and never hold what
      the audience may not see. */
  lemma AlertProvenance(actions: seq<Action>, i: nat)
    requires Execute(actions).Some?
    requires i < |Execute(actions).value.history| && Execute(actions).value.history[i].AlertIssued?
    ensures var history := Execute(actions).value.history;
            var alert, fields := history[i].alert, FieldsOf(history[i].alert.fields);
            && VerifiedBefore(history, i, alert.caseId)
            && (alert.policy.visibility in {Community, Public} ==> history[i].actor.Reviewer?)
            && Distinct(fields)
            && (forall field :: field in fields ==> field in alert.policy.allowlist)
            && ReporterIdentity !in fields
            && (alert.policy.visibility in {Community, Public} ==>
                  forall field :: field in fields ==> field !in {InternalNotes, ExactLocation, WitnessDetails})
  {
    ReachableInv(actions);
    hide Execute, LogOf;
  }

  /** Every stored alert was issued, and since then at most withdrawn, by a reviewer. */
  lemma EveryAlertWasIssued(actions: seq<Action>, id: AlertId)
    requires Execute(actions).Some? && id in Execute(actions).value.alerts
    ensures var s := Execute(actions).value;
            exists i :: 0 <= i < |s.history| && s.history[i].AlertIssued? &&
                        s.history[i].alert == s.alerts[id].(status := AlertActive, version := 1)
    ensures Execute(actions).value.alerts[id].version ==
            if Execute(actions).value.alerts[id].status == AlertActive then 1 else 2
  {
    ReachableInv(actions);
    var s := Execute(actions).value;
    hide Execute, LogOf;
    var h :| h in s.history && h.AlertIssued? && h.alert == s.alerts[id].(status := AlertActive, version := 1);
    var i :| 0 <= i < |s.history| && s.history[i] == h;
  }

  /** One idempotency key yields one alert, and one alert is withdrawn at most once. */
  lemma NothingHappensTwice(actions: seq<Action>, i: nat, j: nat)
    requires Execute(actions).Some? && i < j < |Execute(actions).value.history|
    ensures var history := Execute(actions).value.history;
            && (history[i].AlertIssued? && history[j].AlertIssued? && history[i].key.Some? ==>
                  history[i].key != history[j].key)
            && (history[i].AlertWithdrawn? && history[j].AlertWithdrawn? ==>
                  history[i].alertId != history[j].alertId)
  {
    ReachableInv(actions);
    hide Execute, LogOf;
  }

  lemma {:induction false} LogOfPrefix(history: History, i: nat, id: CaseId)
    requires i <= |history|
    ensures LogOf(history[..i], id) <= LogOf(history, id)
  {
    if i < |history| {
      LogOfPrefix(history[..|history| - 1], i, id);
      assert history[..|history| - 1][..i] == history[..i];
    } else {
      assert history[..i] == history;
    }
  }

  lemma {:induction false} PrefixReplays(log: seq<CaseEntry>, n: nat)
    requires Replay(log).Some? && 0 < n <= |log|
    ensures Replay(log[..n]).Some?
  {
    if n < |log| {
      PrefixReplays(log[..|log| - 1], n);
      assert log[..|log| - 1][..n] == log[..n];
    } else {
      assert log[..n] == log;
    }
  }

  /** At the moment an alert is issued its case is verified, active, resolved or cancelled. */
  lemma CaseWhenAlertIssued(actions: seq<Action>, i: nat)
    requires Execute(actions).Some?
    requires i < |Execute(actions).value.history| && Execute(actions).value.history[i].AlertIssued?
    ensures var history := Execute(actions).value.history;
            var tally := Replay(LogOf(history[..i], history[i].alert.caseId));
            tally.Some? && IsPastVerification(tally.value.status)
  {
    hide Execute, Inv, LogOf, Replay, HasBeenVerified;
    ReachableInv(actions);
    var s := Execute(actions).value;
    var id := s.history[i].alert.caseId;
    IssuedCase(s, i);
    var log := LogOf(s.history[..i], id);
    VerifiedInLogIff(s.history[..i], id);
    NonemptyWhenVerified(log);
    LogOfPrefix(s.history, i, id);
    assert LogOf(s.history, id)[..|log|] == log;
    StoredCase(s, id);
    PrefixReplays(LogOf(s.history, id), |log|);
    VerifiedIffRecorded(log);
  }

  lemma IssuedCase(s: State, i: nat)
    requires Inv(s) && i < |s.history| && s.history[i].AlertIssued?
    ensures s.history[i].alert.caseId in s.cases
    ensures VerifiedBefore(s.history[..i], i, s.history[i].alert.caseId)
  {
    var id := s.history[i].alert.caseId;
    VerifiedPrefix(s.history, i, id);
    var j :| 0 <= j < i && s.history[j].CaseHappened? && s.history[j].caseId == id;
    assert s.history[j] in s.history;
  }

  lemma NonemptyWhenVerified(log: seq<CaseEntry>)
    requires HasBeenVerified(log)
    ensures |log| > 0
  {
  }

  lemma VerifiedPrefix(history: History, i: nat, id: CaseId)
    requires i <= |history| && VerifiedBefore(history, i, id)
    ensures VerifiedBefore(history[..i], i, id)
  {
    var j :| 0 <= j < i && history[j].CaseHappened? && history[j].caseId == id && IsVerification(history[j].entry);
    assert history[..i][j] == history[j];
  }

  /** An alert about to be issued concerns a case that is verified, active or resolved exactly when the case has
      not been cancelled, and a cancellation can only have come after the request read the case. */
  lemma IssueMissesOnlyACancellation(
    actions: seq<Action>, t: RequestId, draft: AlertDraft, actor: Actor)
    requires Execute(actions).Some? && HoldsCase(Execute(actions).value, t)
    requires FromDraft(draft, Execute(actions).value.requests[t].row, actor).Success?
    ensures var s := Execute(actions).value;
            var row := s.requests[t].row;
            && row.id in s.cases
            && (IsVerifiedOrLater(s.cases[row.id].status) <==> s.cases[row.id].status != Cancelled)
            && (s.cases[row.id].status == Cancelled ==> row.version < s.cases[row.id].version)
  {
    hide Execute, Inv, LogOf, Replay, HasBeenVerified, VerifiedBefore;
    ReachableInv(actions);
    var s := Execute(actions).value;
    var row := s.requests[t].row;
    HeldCaseVerified(s, t);
    StoredCase(s, row.id);
    VerifiedInLogIff(s.history, row.id);
    VerifiedIffRecorded(LogOf(s.history, row.id));
  }

  lemma HeldCaseVerified(s: State, t: RequestId)
    requires Inv(s) && HoldsCase(s, t)
    ensures var row := s.requests[t].row;
            && row.id in s.cases
            && row.version <= s.cases[row.id].version
            && (row.version == s.cases[row.id].version ==> row == s.cases[row.id])
            && (IsPastVerification(row.status) ==> VerifiedBefore(s.history, |s.history|, row.id))
  {
    assert RequestOk(s.cases, s.alerts, s.history, s.requests[t]);
  }

  // ---- Cancelled is not excluded: a run that issues an alert for a cancelled case ----

  lemma Then(actions: seq<Action>, action: Action)
    requires Execute(actions).Some? && Enabled(Execute(actions).value, action)
    ensures Execute(actions + [action]) == Some(Perform(Execute(actions).value, action))
  {
    assert (actions + [action])[..|actions|] == actions;
  }

  lemma ReadSteps(s: State, t: RequestId, id: CaseId)
    requires t !in s.requests && id in s.cases && s.cases[id].id == id
    ensures Enabled(s, ReadHeader(t, id)) && Enabled(Perform(s, ReadHeader(t, id)), ReadReports(t))
    ensures Perform(Perform(s, ReadHeader(t, id)), ReadReports(t)) ==
            s.(requests := s.requests[t := CaseLoaded(s.cases[id])])
  {
    assert s.cases[id].(reports := []).(reports := s.cases[id].reports) == s.cases[id];
    assert Perform(Perform(s, ReadHeader(t, id)), ReadReports(t)).requests == s.requests[t := CaseLoaded(s.cases[id])];
  }

  /** A request that reads a case with nothing in between holds the stored row. */
  lemma ReadNow(actions: seq<Action>, t: RequestId, id: CaseId) returns (longer: seq<Action>)
    requires Execute(actions).Some?
    requires t !in Execute(actions).value.requests && id in Execute(actions).value.cases
    ensures var s := Execute(actions).value;
            && s.cases[id].id == id
            && Execute(longer) == Some(s.(requests := s.requests[t := CaseLoaded(s.cases[id])]))
  {
    hide Execute, Inv, Enabled, Perform;
    ReachableInv(actions);
    var s := Execute(actions).value;
    StoredCase(s, id);
    ReadSteps(s, t, id);
    Then(actions, ReadHeader(t, id));
    Then(actions + [ReadHeader(t, id)], ReadReports(t));
    longer := actions + [ReadHeader(t, id)] + [ReadReports(t)];
  }

  /** In every reachable state a permitted status change that meets no competing write succeeds. */
  lemma ReviewNow(actions: seq<Action>, t: RequestId, id: CaseId, actor: Actor, to: CaseStatus)
    returns (longer: seq<Action>)
    requires Execute(actions).Some?
    requires t !in Execute(actions).value.requests && id in Execute(actions).value.cases
    requires IsAllowedTransition(Execute(actions).value.cases[id].status, to) && MayTransition(actor, to)
    ensures var s := Execute(actions).value;
            var row := s.cases[id];
            Execute(longer) == Some(s.(
              cases := s.cases[id := row.(status := to, version := row.version + 1)],
              history := s.history +
                [CaseHappened(id, CaseEntry(CaseEvent(EventFor(to), row.version + 1), actor))]))
  {
    var s := Execute(actions).value;
    var read := ReadNow(actions, t, id);
    hide Execute, LogOf;
    Then(read, Review(t, actor, to));
    longer := read + [Review(t, actor, to)];
    var loaded := Execute(read).value;
    assert Forget(loaded, t) == s by {
      assert loaded.requests - {t} == s.requests;
    }
  }

  /** In every reachable state a report that belongs to no case can open one. */
  lemma OpenNow(actions: seq<Action>, id: CaseId, incidentType: IncidentType, report: ReportId, actor: Actor)
    requires Execute(actions).Some? && id !in Execute(actions).value.cases
    requires forall c :: c in Execute(actions).value.cases ==> report !in Execute(actions).value.cases[c].reports
    ensures var s := Execute(actions).value;
            Execute(actions + [Open(id, incidentType, report, actor)]) == Some(s.(
              cases := s.cases[id := CaseRow(id, incidentType, Reported, [report], 1)],
              history := s.history + [CaseHappened(id, CaseEntry(CaseEvent(CaseCreated, 1), actor))]))
  {
    hide Execute;
    Then(actions, Open(id, incidentType, report, actor));
  }

  /** In every reachable state a report that belongs to no case can be linked to any case that stands. */
  lemma LinkNow(actions: seq<Action>, t: RequestId, id: CaseId, report: ReportId, actor: Actor)
    returns (longer: seq<Action>)
    requires Execute(actions).Some?
    requires t !in Execute(actions).value.requests && id in Execute(actions).value.cases
    requires forall c :: c in Execute(actions).value.cases ==> report !in Execute(actions).value.cases[c].reports
    ensures var s := Execute(actions).value;
            var row := s.cases[id];
            Execute(longer) == Some(s.(
              cases := s.cases[id := row.(reports := row.reports + [report], version := row.version + 1)],
              history := s.history +
                [CaseHappened(id, CaseEntry(CaseEvent(CaseReportLinked, row.version + 1), actor))]))
  {
    hide Execute, LogOf;
    var s := Execute(actions).value;
    var read := ReadNow(actions, t, id);
    Then(read, Link(t, report, actor));
    longer := read + [Link(t, report, actor)];
    var loaded := Execute(read).value;
    assert Forget(loaded, t) == s by {
      assert loaded.requests - {t} == s.requests;
    }
  }

  /** The alert a draft asks for, about the case. */
  ghost function AlertFor(draft: AlertDraft, id: CaseId): Alert {
    Alert(draft.id, id, draft.policy, draft.severity, draft.geography, AlertActive, draft.fields, 1, draft.issuedBy)
  }

  /** What issuing asks of the case, the draft and whoever asks. */
  ghost predicate MayIssue(row: CaseRow, draft: AlertDraft, actor: Actor) {
    && SafePolicy(draft.policy)
    && (actor.Reviewer? || draft.policy.visibility == Internal || draft.policy.visibility == Partner)
    && (row.status == Verified || row.status == Active || row.status == Resolved)
    && row.incidentType == draft.policy.incidentType
    && (forall i :: 0 <= i < |draft.fields| ==> draft.fields[i].field in draft.policy.allowlist)
    && Distinct(FieldsOf(draft.fields))
  }

  lemma DraftIsIssued(row: CaseRow, draft: AlertDraft, actor: Actor)
    requires MayIssue(row, draft, actor)
    ensures FromDraft(draft, row, actor) == Success(AlertFor(draft, row.id))
    ensures NewPolicy(draft.policy).Success?
  {
    hide NewPolicy, SafePolicy, FieldComplaint;
    PolicyExistsIffSafe(draft.policy);
    IssuedIff(draft.id, row, draft.policy, draft.severity, draft.geography, draft.fields, actor, draft.issuedBy);
  }

  /** In every reachable state an alert may be issued for any case that allows it, exactly as drafted; but under a key
      that was used before, nothing happens. */
  lemma IssueNow(
    actions: seq<Action>, t: RequestId, id: CaseId, draft: AlertDraft, actor: Actor, key: Option<string>)
    returns (longer: seq<Action>)
    requires Execute(actions).Some?
    requires t !in Execute(actions).value.requests && id in Execute(actions).value.cases
    requires draft.id !in Execute(actions).value.alerts && MayIssue(Execute(actions).value.cases[id], draft, actor)
    ensures var s := Execute(actions).value;
            Execute(longer) == Some(
              if key.Some? && key.value in s.keys then s
              else s.(alerts := s.alerts[draft.id := AlertFor(draft, id)],
                      keys := if key.Some? then s.keys + {key.value} else s.keys,
                      history := s.history + [AlertIssued(AlertFor(draft, id), actor, key)]))
  {
    hide Execute, LogOf, Inv, MayIssue, FromDraft, NewPolicy;
    var s := Execute(actions).value;
    ReachableInv(actions);
    StoredCase(s, id);
    DraftIsIssued(s.cases[id], draft, actor);
    var read := ReadNow(actions, t, id);
    Then(read, Issue(t, draft, actor, key));
    longer := read + [Issue(t, draft, actor, key)];
    var loaded := Execute(read).value;
    assert Forget(loaded, t) == s by {
      assert loaded.requests - {t} == s.requests;
    }
  }

  /** In every reachable state a reviewer can cancel any alert that is active, and that withdraws it. */
  lemma CancelNow(actions: seq<Action>, t: RequestId, id: AlertId, reviewer: ReviewerId) returns (longer: seq<Action>)
    requires Execute(actions).Some?
    requires t !in Execute(actions).value.requests && id in Execute(actions).value.alerts
    requires Execute(actions).value.alerts[id].status == AlertActive
    ensures Execute(longer).Some? && id in Execute(longer).value.alerts
    ensures Execute(longer).value.alerts[id] ==
            Execute(actions).value.alerts[id].(status := AlertCancelled, version := 2)
    ensures Execute(longer).value.history ==
            Execute(actions).value.history + [AlertWithdrawn(id, 2, Reviewer(reviewer))]
  {
    hide Execute, Inv, LogOf;
    var s := Execute(actions).value;
    ReachableInv(actions);
    StoredAlert(s, id);
    Then(actions, ReadAlert(t, id));
    longer := actions + [ReadAlert(t, id)];
    Then(longer, Cancel(t, Reviewer(reviewer)));
    longer := longer + [Cancel(t, Reviewer(reviewer))];
  }

  lemma StoredAlert(s: State, id: AlertId)
    requires Inv(s) && id in s.alerts
    ensures s.alerts[id].id == id && s.alerts[id].version == if s.alerts[id].status == AlertActive then 1 else 2
  {
  }

  /** The check of the case's status is made on the request's copy only, so a case cancelled in between still
      gets its alert: for every case and every draft a reviewer could issue, some run ends that way. */
  lemma AlertForCancelledCase(
    id: CaseId, report: ReportId, reviewer: ReviewerId, draft: AlertDraft) returns (run: seq<Action>)
    requires NewPolicy(draft.policy).Success?
    requires FieldComplaint(draft.policy, draft.fields).None?
    ensures Execute(run).Some?
    ensures var s := Execute(run).value;
            && id in s.cases && s.cases[id].status == Cancelled
            && draft.id in s.alerts && s.alerts[draft.id].caseId == id && s.alerts[draft.id].status == AlertActive
            && |s.history| > 0 && s.history[|s.history| - 1].AlertIssued?
            && s.history[|s.history| - 1].alert == s.alerts[draft.id]
  {
    var actor := Reviewer(reviewer);
    var open := Open(id, draft.policy.incidentType, report, actor);
    Then([], open);
    run := [] + [open];
    hide Execute, LogOf;
    run := ReviewNow(run, 0, id, actor, UnderReview);
    run := ReviewNow(run, 0, id, actor, Verified);
    var held := ReadNow(run, 1, id);
    var row := Execute(held).value.cases[id];
    run := ReviewNow(held, 0, id, actor, Cancelled);
    assert FromDraft(draft, row, actor).Success?;
    Then(run, Issue(1, draft, actor, None));
    run := run + [Issue(1, draft, actor, None)];
  }
}
