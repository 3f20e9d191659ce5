/** Contact preferences, retry policy, and the delivery aggregate with its transitions. */
module Deliveries {
  import opened Prelude
  import opened Text
  import opened Identifiers
  import opened Subscriptions

  datatype ChannelType = WhatsApp | Sms | Email | Push

  function ChannelName(channel: ChannelType): string {
    match channel
    case WhatsApp => "WHATSAPP"
    case Sms => "SMS"
    case Email => "EMAIL"
    case Push => "PUSH"
  }

  datatype ChannelEndpoint = ChannelEndpoint(channel: ChannelType, address: string)

  /** `None` when the address is blank once trimmed. */
  function NewEndpoint(channel: ChannelType, address: string): Option<ChannelEndpoint> {
    if |Trim(address)| == 0 then None else Some(ChannelEndpoint(channel, Trim(address)))
  }

  datatype DeliveryStrategy = All | PrimaryFallback | PriorityList

  datatype DeliveryPreference = DeliveryPreference(strategy: DeliveryStrategy, channels: seq<ChannelEndpoint>)

  datatype DeliveryPreferenceError = EmptyChannelList | DuplicateChannel(channel: ChannelType)

  function ChannelsOf(endpoints: seq<ChannelEndpoint>): seq<ChannelType> {
    Map((e: ChannelEndpoint) => e.channel, endpoints)
  }

  /** At least one endpoint, and no channel listed twice. */
  ghost predicate ValidPreference(preference: DeliveryPreference) {
    |preference.channels| > 0 && Distinct(ChannelsOf(preference.channels))
  }

  /** Index `n` repeats an earlier channel, and no smaller index does. */
  ghost predicate FirstRepeat(endpoints: seq<ChannelEndpoint>, n: nat) {
    && n < |endpoints|
    && endpoints[n].channel in ChannelsOf(endpoints[..n])
    && Distinct(ChannelsOf(endpoints[..n]))
  }

  method NewPreference(strategy: DeliveryStrategy, channels: seq<ChannelEndpoint>)
    returns (result: Result<DeliveryPreference, DeliveryPreferenceError>)
    ensures result.Success? <==> ValidPreference(DeliveryPreference(strategy, channels))
    ensures result.Success? ==> result.value == DeliveryPreference(strategy, channels)
    ensures result == Failure(EmptyChannelList) <==> |channels| == 0
    ensures result.Failure? && result.error.DuplicateChannel? ==>
              exists n: nat :: FirstRepeat(channels, n) && channels[n].channel == result.error.channel
  {
    if |channels| == 0 {
      return Failure(EmptyChannelList);
    }
    var seen: seq<ChannelType> := [];
    for n := 0 to |channels|
      invariant seen == ChannelsOf(channels[..n])
      invariant Distinct(seen)
    {
      var channel := channels[n].channel;
      if channel in seen {
        assert FirstRepeat(channels, n);
        var k :| 0 <= k < n && seen[k] == channel;
        assert ChannelsOf(channels)[k] == ChannelsOf(channels)[n];
        return Failure(DuplicateChannel(channel));
      }
      seen := seen + [channel];
    }
    assert channels[..|channels|] == channels;
    return Success(DeliveryPreference(strategy, channels));
  }

  /** The pigeonhole bound behind the tier cast: there are only four channels. */
  lemma AtMostFourChannels(endpoints: seq<ChannelEndpoint>)
    requires Distinct(ChannelsOf(endpoints))
    ensures |endpoints| <= 4
  {
    var channels := ChannelsOf(endpoints);
    DistinctCardinality(channels);
    var used, available := set c | c in channels, {WhatsApp, Sms, Email, Push};
    forall c | c in used ensures c in available {
      assert c == WhatsApp || c == Sms || c == Email || c == Push;
    }
    SubsetSize(used, available);
  }

  lemma {:induction false} SubsetSize<A>(a: set<A>, b: set<A>)
    requires a <= b
    ensures |a| <= |b|
  {
    if a != {} {
      var x :| x in a;
      SubsetSize(a - {x}, b - {x});
    }
  }

  /** The tier of the endpoint at `index`: an eight-bit cast of the index in a sequential strategy. */
  function TierOf(strategy: DeliveryStrategy, index: nat): nat {
    match strategy
    case All => 0
    case PrimaryFallback => index % 256
    case PriorityList => index % 256
  }

  /** The cast never truncates: in a valid sequential preference the tier is the position. */
  lemma TierIsPosition(preference: DeliveryPreference, index: nat)
    requires ValidPreference(preference) && preference.strategy != All
    requires index < |preference.channels|
    ensures TierOf(preference.strategy, index) == index < 4
  {
    AtMostFourChannels(preference.channels);
  }

  /** Seconds to wait after attempt `attemptCount`: 30 seconds, doubling, at most half an hour. */
  function BackoffAfterAttempt(attemptCount: nat): nat {
    var previous := if attemptCount == 0 then 0 else attemptCount - 1;
    var exponent := if previous < 6 then previous else 6;
    var delay := 30 * Pow2(exponent);
    if delay < 1800 then delay else 1800
  }

  function Pow2(n: nat): nat {
    if n == 0 then 1 else 2 * Pow2(n - 1)
  }

  lemma {:induction false} Pow2Monotone(m: nat, n: nat)
    requires m <= n
    ensures Pow2(m) <= Pow2(n)
  {
    if m < n {
      Pow2Monotone(m, n - 1);
    }
  }

  /** Capping the exponent changes nothing, so the delay is the plain formula; the
      shift and product stay far inside 64 bits, and the delay never shrinks. */
  lemma BackoffFormula(n: nat)
    requires n >= 1
    ensures BackoffAfterAttempt(n) == if 30 * Pow2(n - 1) < 1800 then 30 * Pow2(n - 1) else 1800
    ensures BackoffAfterAttempt(n) <= BackoffAfterAttempt(n + 1)
    ensures 30 * Pow2(if n - 1 < 6 then n - 1 else 6) <= 1920
  {
    assert Pow2(6) == 64;
    if n - 1 >= 6 {
      Pow2Monotone(6, n - 1);
    } else {
      Pow2Monotone(n - 1, 6);
      Pow2Monotone(n - 1, n);
    }
  }

  // ---- The aggregate ----

  /** The part of a delivery that planning fixes once and for all. */
  datatype DeliveryPlan = DeliveryPlan(
    alertId: AlertId, consumerId: ConsumerId, channel: ChannelType, address: string,
    tier: nat, subscriptions: seq<MatchedSubscription>, maxAttempts: nat)

  datatype DeliveryStatus = Queued | Sending | Sent | Delivered | Retrying | FailedPermanently

  /** A delivery as it is stored and loaded. */
  datatype DeliveryRow = DeliveryRow(plan: DeliveryPlan, status: DeliveryStatus, attemptCount: nat, version: nat)

  datatype DeliveryEventType =
    | DeliveryRequested
    | DeliveryStarted
    | DeliverySent
    | DeliveryDelivered
    | DeliveryFailed
    | DeliveryRetried

  datatype AttemptOutcome =
    | SentAs(providerMessageId: Option<string>)
    | FailedWith(retryable: bool, reason: string)

  datatype DeliveryAttempt = DeliveryAttempt(number: nat, outcome: AttemptOutcome)

  /** What one transition persists besides the row: an event, and an attempt when one ended. */
  datatype LogEntry = LogEntry(event: DeliveryEventType, version: nat, attempt: Option<DeliveryAttempt>)

  datatype Change = Change(row: DeliveryRow, entry: LogEntry)

  datatype TransitionError = TransitionError(from: DeliveryStatus, to: DeliveryStatus)

  type Transition = Result<Change, TransitionError>

  /** `consumer:alert:channel:address`. */
  function IdempotencyKey(plan: DeliveryPlan): string {
    plan.consumerId.uuid + ":" + plan.alertId.uuid + ":" + ChannelName(plan.channel) + ":" + plan.address
  }

  function Planned(plan: DeliveryPlan): Change {
    Change(DeliveryRow(plan, Queued, 0, 1), LogEntry(DeliveryRequested, 1, None))
  }

  function Started(row: DeliveryRow): Transition {
    if row.status != Queued && row.status != Retrying then Failure(TransitionError(row.status, Sending))
    else
      Success(Change(
        row.(status := Sending, attemptCount := row.attemptCount + 1, version := row.version + 1),
        LogEntry(DeliveryStarted, row.version + 1, None)))
  }

  function Succeeded(row: DeliveryRow, providerMessageId: Option<string>): Transition {
    if row.status != Sending then Failure(TransitionError(row.status, Sent))
    else
      Success(Change(
        row.(status := Sent, version := row.version + 1),
        LogEntry(DeliverySent, row.version + 1, Some(DeliveryAttempt(row.attemptCount, SentAs(providerMessageId))))))
  }

  function Confirmed(row: DeliveryRow): Transition {
    if row.status != Sent then Failure(TransitionError(row.status, Delivered))
    else
      Success(Change(
        row.(status := Delivered, version := row.version + 1),
        LogEntry(DeliveryDelivered, row.version + 1, None)))
  }

  function Failed(row: DeliveryRow, retryable: bool, reason: string): Transition {
    if row.status != Sending then Failure(TransitionError(row.status, FailedPermanently))
    else
      var willRetry := retryable && row.attemptCount < row.plan.maxAttempts;
      Success(Change(
        row.(status := if willRetry then Retrying else FailedPermanently, version := row.version + 1),
        LogEntry(if willRetry then DeliveryRetried else DeliveryFailed, row.version + 1,
                 Some(DeliveryAttempt(row.attemptCount, FailedWith(retryable, reason))))))
  }

  /** What a transition method leaves behind and reports, given the row it started from. */
  ghost predicate Follows(
    transition: Transition, before: DeliveryRow, after: DeliveryRow, result: Result<LogEntry, TransitionError>)
  {
    match transition
    case Success(change) => after == change.row && result == Success(change.entry)
    case Failure(error) => after == before && result == Failure(error)
  }

  /** The aggregate held in memory while a worker or a callback changes it. */
  class Delivery {
    const id: DeliveryId
    const plan: DeliveryPlan
    var status: DeliveryStatus
    var attemptCount: nat
    var version: nat

    ghost function Row(): DeliveryRow
      reads this
    {
      DeliveryRow(plan, status, attemptCount, version)
    }

    constructor Reconstitute(id: DeliveryId, row: DeliveryRow)
      ensures this.id == id && Row() == row
    {
      this.id, plan := id, row.plan;
      status, attemptCount, version := row.status, row.attemptCount, row.version;
    }

    method StartAttempt() returns (result: Result<LogEntry, TransitionError>)
      modifies this
      ensures Follows(Started(old(Row())), old(Row()), Row(), result)
      ensures result.Success? <==> old(status) == Queued || old(status) == Retrying
      ensures result.Success? ==>
                && (status, attemptCount, version) == (Sending, old(attemptCount) + 1, old(version) + 1)
                && result.value == LogEntry(DeliveryStarted, old(version) + 1, None)
      ensures result.Failure? ==> Row() == old(Row()) && result.error == TransitionError(old(status), Sending)
    {
      if status != Queued && status != Retrying {
        return Failure(TransitionError(status, Sending));
      }
      status := Sending;
      attemptCount := attemptCount + 1;
      version := version + 1;
      return Success(LogEntry(DeliveryStarted, version, None));
    }

    method RecordSuccess(providerMessageId: Option<string>) returns (result: Result<LogEntry, TransitionError>)
      modifies this
      ensures Follows(Succeeded(old(Row()), providerMessageId), old(Row()), Row(), result)
      ensures result.Success? <==> old(status) == Sending
      ensures result.Success? ==>
                && (status, attemptCount, version) == (Sent, old(attemptCount), old(version) + 1)
                && result.value.event == DeliverySent && result.value.version == old(version) + 1
                && result.value.attempt == Some(DeliveryAttempt(old(attemptCount), SentAs(providerMessageId)))
      ensures result.Failure? ==> Row() == old(Row()) && result.error == TransitionError(old(status), Sent)
    {
      if status != Sending {
        return Failure(TransitionError(status, Sent));
      }
      status := Sent;
      version := version + 1;
      return Success(LogEntry(DeliverySent, version, Some(DeliveryAttempt(attemptCount, SentAs(providerMessageId)))));
    }

    method RecordDelivered() returns (result: Result<LogEntry, TransitionError>)
      modifies this
      ensures Follows(Confirmed(old(Row())), old(Row()), Row(), result)
      ensures result.Success? <==> old(status) == Sent
      ensures result.Success? ==>
                && (status, attemptCount, version) == (Delivered, old(attemptCount), old(version) + 1)
                && result.value == LogEntry(DeliveryDelivered, old(version) + 1, None)
      ensures result.Failure? ==> Row() == old(Row()) && result.error == TransitionError(old(status), Delivered)
    {
      if status != Sent {
        return Failure(TransitionError(status, Delivered));
      }
      status := Delivered;
      version := version + 1;
      return Success(LogEntry(DeliveryDelivered, version, None));
    }

    method RecordFailure(retryable: bool, reason: string) returns (result: Result<LogEntry, TransitionError>)
      modifies this
      ensures Follows(Failed(old(Row()), retryable, reason), old(Row()), Row(), result)
      ensures result.Success? <==> old(status) == Sending
      ensures result.Success? ==>
                && (status == Retrying <==> retryable && old(attemptCount) < plan.maxAttempts)
                && (status != Retrying ==> status == FailedPermanently)
                && (attemptCount, version) == (old(attemptCount), old(version) + 1)
                && result.value.event == (if status == Retrying then DeliveryRetried else DeliveryFailed)
                && result.value.version == old(version) + 1
                && result.value.attempt == Some(DeliveryAttempt(old(attemptCount), FailedWith(retryable, reason)))
      ensures result.Failure? ==>
                Row() == old(Row()) && result.error == TransitionError(old(status), FailedPermanently)
    {
      if status != Sending {
        return Failure(TransitionError(status, FailedPermanently));
      }
      var willRetry := retryable && attemptCount < plan.maxAttempts;
      status := if willRetry then Retrying else FailedPermanently;
      version := version + 1;
      return Success(LogEntry(if willRetry then DeliveryRetried else DeliveryFailed, version,
                              Some(DeliveryAttempt(attemptCount, FailedWith(retryable, reason)))));
    }
  }

  // ---- Idempotency keys ----

  lemma SplitAtColon(a: string, rest: string, b: string, tail: string)
    requires ':' !in a && ':' !in b
    requires a + ":" + rest == b + ":" + tail
    ensures a == b && rest == tail
  {
    var left, right := a + ":" + rest, b + ":" + tail;
    assert left[|a|] == ':' && right[|b|] == ':';
    assert left[..|a|] == a && right[..|b|] == b;
    assert left[|a| + 1..] == rest && right[|b| + 1..] == tail;
  }

  lemma ChannelNamesAreDistinct(a: ChannelType, b: ChannelType)
    requires ChannelName(a) == ChannelName(b)
    ensures a == b
  {
    assert |ChannelName(WhatsApp)| == 8 && |ChannelName(Sms)| == 3;
    assert |ChannelName(Email)| == 5 && |ChannelName(Push)| == 4;
  }

  lemma KeyShape(p: DeliveryPlan)
    ensures IdempotencyKey(p) ==
            p.consumerId.uuid + ":" + (p.alertId.uuid + ":" + (ChannelName(p.channel) + ":" + p.address))
    ensures ':' !in ChannelName(p.channel)
  {
  }

  /** The key determines every component, whatever colons the address holds. */
  lemma KeyDeterminesEndpoint(p: DeliveryPlan, q: DeliveryPlan)
    ensures IdempotencyKey(p) == IdempotencyKey(q) <==>
            && p.consumerId == q.consumerId
            && p.alertId == q.alertId
            && p.channel == q.channel
            && p.address == q.address
  {
    hide IdempotencyKey, ChannelName;
    KeyShape(p);
    KeyShape(q);
    if IdempotencyKey(p) == IdempotencyKey(q) {
      var pTail := ChannelName(p.channel) + ":" + p.address;
      var qTail := ChannelName(q.channel) + ":" + q.address;
      var pRest, qRest := p.alertId.uuid + ":" + pTail, q.alertId.uuid + ":" + qTail;
      SplitAtColon(p.consumerId.uuid, pRest, q.consumerId.uuid, qRest);
      SplitAtColon(p.alertId.uuid, pTail, q.alertId.uuid, qTail);
      SplitAtColon(ChannelName(p.channel), p.address, ChannelName(q.channel), q.address);
      ChannelNamesAreDistinct(p.channel, q.channel);
    }
  }
}
