/** Listing alerts: a scan in batches that filters by what the caller may read before it pages. */
module AlertListing {
  import opened Prelude
  import opened Identifiers
  import opened Alerts
  import opened Subscriptions
  import opened Organizations

  const MAX_LIMIT: nat := 100
  const SCAN_BATCH: nat := 100

  datatype AlertAccess = AlertAccess(membership: Membership, subscriptions: seq<Subscription>)

  predicate IssuedByOwn(access: AlertAccess, alert: Alert) {
    access.membership.organization.Some? && access.membership.organization == alert.issuedBy
  }

  predicate CanRead(lower: string -> string, access: AlertAccess, alert: Alert) {
    || access.membership.role == PlatformAdmin
    || IssuedByOwn(access, alert)
    || exists s :: s in access.subscriptions && Evaluate(lower, s, alert).matched
  }

  /** A platform admin reads everything; anyone else what the own organization issued, and what some own subscription
      accepts rule by rule. */
  lemma CanReadIff(lower: string -> string, access: AlertAccess, alert: Alert)
    ensures CanRead(lower, access, alert) <==>
            || access.membership.role == PlatformAdmin
            || (alert.issuedBy.Some? && access.membership.organization == alert.issuedBy)
            || exists i :: 0 <= i < |access.subscriptions| && AllRulesHold(lower, access.subscriptions[i], alert)
  {
    hide AllRulesHold, Evaluate;
    forall s ensures Evaluate(lower, s, alert).matched <==> AllRulesHold(lower, s, alert) {
      MatchedIffAllRulesHold(lower, s, alert);
    }
    if i :| 0 <= i < |access.subscriptions| && AllRulesHold(lower, access.subscriptions[i], alert) {
      assert access.subscriptions[i] in access.subscriptions;
    }
  }

  function Readable(lower: string -> string, access: AlertAccess, all: seq<Alert>): seq<Alert> {
    Filter(alert => CanRead(lower, access, alert), all)
  }

  lemma ReadableConcat(lower: string -> string, access: AlertAccess, xs: seq<Alert>, ys: seq<Alert>)
    ensures Readable(lower, access, xs + ys) == Readable(lower, access, xs) + Readable(lower, access, ys)
  {
    FilterConcat(alert => CanRead(lower, access, alert), xs, ys);
  }

  lemma ReadableSnoc(lower: string -> string, access: AlertAccess, xs: seq<Alert>, x: Alert)
    ensures Readable(lower, access, xs + [x]) ==
            Readable(lower, access, xs) + if CanRead(lower, access, x) then [x] else []
  {
    assert (xs + [x])[..|xs|] == xs;
  }

  lemma PageSnoc<A>(xs: seq<A>, x: A, limit: nat, offset: nat)
    requires |Page(xs, limit, offset)| < limit
    ensures Page(xs + [x], limit, offset) == Page(xs, limit, offset) + if |xs| >= offset then [x] else []
  {
    if |xs| >= offset {
      assert (xs + [x])[offset..] == xs[offset..] + [x];
    }
  }

  /** Once a page is full, later elements cannot change it. */
  lemma FullPageIsFinal<A>(xs: seq<A>, ys: seq<A>, limit: nat, offset: nat)
    requires |Page(xs, limit, offset)| == limit && limit > 0
    ensures Page(xs + ys, limit, offset) == Page(xs, limit, offset)
  {
    assert (xs + ys)[offset..] == xs[offset..] + ys;
  }

  /** Reading one more row. */
  lemma ScanStep(lower: string -> string, access: AlertAccess, all: seq<Alert>, k: nat, limit: nat, offset: nat)
    requires k < |all|
    ensures var before := Readable(lower, access, all[..k]);
            && Readable(lower, access, all[..k + 1]) ==
               (if CanRead(lower, access, all[k]) then before + [all[k]] else before)
            && (CanRead(lower, access, all[k]) && |Page(before, limit, offset)| < limit ==>
                  Page(Readable(lower, access, all[..k + 1]), limit, offset) ==
                  if |before| >= offset then Page(before, limit, offset) + [all[k]] else Page(before, limit, offset))
  {
    hide Page, CanRead, Readable;
    assert all[..k + 1] == all[..k] + [all[k]];
    ReadableSnoc(lower, access, all[..k], all[k]);
    var before := Readable(lower, access, all[..k]);
    if |Page(before, limit, offset)| < limit {
      PageSnoc(before, all[k], limit, offset);
    }
  }

  /** A page filled by a prefix of the rows is the page of all of them. */
  lemma FilledByPrefix(lower: string -> string, access: AlertAccess, all: seq<Alert>, k: nat, limit: nat, offset: nat)
    requires k <= |all| && limit > 0 && |Page(Readable(lower, access, all[..k]), limit, offset)| == limit
    ensures Page(Readable(lower, access, all), limit, offset) == Page(Readable(lower, access, all[..k]), limit, offset)
  {
    hide Page, Readable;
    assert all == all[..k] + all[k..];
    ReadableConcat(lower, access, all[..k], all[k..]);
    FullPageIsFinal(Readable(lower, access, all[..k]), Readable(lower, access, all[k..]), limit, offset);
  }

  lemma BatchIsSlice(all: seq<Alert>, start: nat)
    requires start <= |all|
    ensures var batch := Page(all, SCAN_BATCH, start);
            && start + |batch| <= |all| && |batch| <= SCAN_BATCH
            && (|batch| < SCAN_BATCH ==> start + |batch| == |all|)
            && forall n :: 0 <= n < |batch| ==> batch[n] == all[start + n]
  {
  }

  lemma NothingRead(lower: string -> string, access: AlertAccess, limit: nat, offset: nat)
    ensures Readable(lower, access, []) == [] && Page(Readable(lower, access, []), limit, offset) == []
  {
  }

  /** The scan: hundred-row batches until the page is full or the table is exhausted. */
  method ScanReadable(lower: string -> string, access: AlertAccess, all: seq<Alert>, limit: nat, offset: nat)
    returns (selected: seq<Alert>)
    requires limit > 0
    ensures selected == Page(Readable(lower, access, all), limit, offset)
  {
    hide Page, CanRead, Readable;
    selected := [];
    var scanOffset, matched := 0, 0;
    assert all[..0] == [];
    NothingRead(lower, access, limit, offset);
    while true
      invariant scanOffset <= |all|
      invariant matched == |Readable(lower, access, all[..scanOffset])|
      invariant selected == Page(Readable(lower, access, all[..scanOffset]), limit, offset)
      invariant |selected| < limit
      decreases |all| - scanOffset
    {
      var batch := Page(all, SCAN_BATCH, scanOffset);
      BatchIsSlice(all, scanOffset);
      var exhausted := |batch| < SCAN_BATCH;
      var n := 0;
      while n < |batch| && |selected| < limit
        invariant n <= |batch|
        invariant scanOffset + n <= |all|
        invariant matched == |Readable(lower, access, all[..scanOffset + n])|
        invariant selected == Page(Readable(lower, access, all[..scanOffset + n]), limit, offset)
        invariant |selected| <= limit
      {
        var alert := batch[n];
        ScanStep(lower, access, all, scanOffset + n, limit, offset);
        if CanRead(lower, access, alert) {
          if matched >= offset {
            selected := selected + [alert];
          }
          matched := matched + 1;
        }
        assert scanOffset + (n + 1) == (scanOffset + n) + 1;
        n := n + 1;
      }
      if |selected| == limit {
        FilledByPrefix(lower, access, all, scanOffset + n, limit, offset);
        return;
      }
      if exhausted {
        assert all[..scanOffset + n] == all;
        return;
      }
      scanOffset := scanOffset + SCAN_BATCH;
    }
  }

  /** What the listing returns: a platform admin pages the table directly, a caller without any
      subscription gets nothing, everyone else gets the scan. */
  method ListAlerts(lower: string -> string, access: AlertAccess, all: seq<Alert>, requested: nat, offset: nat)
    returns (selected: seq<Alert>)
    ensures selected == Listed(lower, access, all, requested, offset)
    ensures |selected| <= requested && |selected| <= 100
    ensures access.membership.role == PlatformAdmin ==> selected == Page(all, Min(requested, 100), offset)
    ensures access.membership.role != PlatformAdmin && |access.subscriptions| == 0 ==> selected == []
    ensures access.membership.role != PlatformAdmin && |access.subscriptions| > 0 ==>
              selected == Page(Readable(lower, access, all), Min(requested, 100), offset)
  {
    var limit := if requested < MAX_LIMIT then requested else MAX_LIMIT;
    if access.membership.role == PlatformAdmin {
      return Page(all, limit, offset);
    }
    if |access.subscriptions| == 0 || limit == 0 {
      return [];
    }
    selected := ScanReadable(lower, access, all, limit, offset);
  }

  function Listed(
    lower: string -> string, access: AlertAccess, all: seq<Alert>, requested: nat, offset: nat): seq<Alert>
  {
    var limit := if requested < MAX_LIMIT then requested else MAX_LIMIT;
    if access.membership.role == PlatformAdmin then Page(all, limit, offset)
    else if |access.subscriptions| == 0 then []
    else Page(Readable(lower, access, all), limit, offset)
  }

  lemma {:induction false} FilterAll<A(!new)>(p: A -> bool, xs: seq<A>)
    requires forall x :: x in xs ==> p(x)
    ensures Filter(p, xs) == xs
  {
    if |xs| > 0 {
      assert xs == xs[..|xs| - 1] + [xs[|xs| - 1]];
      FilterAll(p, xs[..|xs| - 1]);
    }
  }

  /** Exactly when the listing is the requested page of what the caller may read. It fails only for a caller
      without subscriptions whose own organization issued more alerts than the offset skips. */
  lemma ListedIsReadablePageIff(
    lower: string -> string, access: AlertAccess, all: seq<Alert>, requested: nat, offset: nat)
    ensures Listed(lower, access, all, requested, offset) ==
              Page(Readable(lower, access, all), if requested < MAX_LIMIT then requested else MAX_LIMIT, offset)
            <==> || access.membership.role == PlatformAdmin
                 || |access.subscriptions| > 0
                 || requested == 0
                 || |Filter(alert => IssuedByOwn(access, alert), all)| <= offset
  {
    if access.membership.role == PlatformAdmin {
      FilterAll(alert => CanRead(lower, access, alert), all);
    } else if |access.subscriptions| == 0 {
      FilterSame(alert => CanRead(lower, access, alert), alert => IssuedByOwn(access, alert), all);
    }
  }

  lemma {:induction false} FilterSame<A(!new)>(p: A -> bool, q: A -> bool, xs: seq<A>)
    requires forall x :: p(x) == q(x)
    ensures Filter(p, xs) == Filter(q, xs)
  {
    if |xs| > 0 {
      FilterSame(p, q, xs[..|xs| - 1]);
    }
  }

  /** A member of an organization that issued one alert and has no subscription: the alert is readable, yet
      not listed. */
  lemma OwnAlertsCanBeMissing(lower: string -> string, own: OrganizationId, alert: Alert)
    requires alert.issuedBy == Some(own)
    ensures var access := AlertAccess(Membership(Member, Some(own)), []);
            CanRead(lower, access, alert) && Listed(lower, access, [alert], 50, 0) == []
  {
  }
}
