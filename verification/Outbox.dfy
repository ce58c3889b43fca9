/**
 The outbox: how a delivery advances with each answer, what an event becomes when its
 worker saves it, and the store's conditional updates.
 */
module Outbox {
  import opened Base

  type Worker = nat

  datatype DeliveryStatus = NotTried | Retrying | Delivered | GaveUp

  datatype Delivery = Delivery(
    endpoint: Id,
    status: DeliveryStatus,
    attempts: nat,
    nextAttempt: Option<Time>,
    deliveredAt: Option<Time>
  )

  datatype EventStatus = Pending | Processing | Published | Failed

  datatype Event = Event(
    id: Id,
    endpoints: seq<Id>,
    createdAt: Time,
    status: EventStatus,
    claims: nat,
    availableAt: Time,
    lockedBy: Option<Worker>,
    lockedUntil: Option<Time>,
    publishedAt: Option<Time>,
    deliveries: seq<Delivery>
  )

  type Table = map<Id, Event>

  /** `maxAttempts` is between 1 and 8; the delays are in seconds. */
  datatype Config = Config(maxAttempts: nat, leaseMs: nat, retryBase: nat, retryMax: nat)

  predicate ConfigOk(c: Config) {
    1 <= c.maxAttempts <= 8
  }

  // -------------------------------------------------------------------- one delivery

  function NewDelivery(endpoint: Id, at: Time): Delivery {
    Delivery(endpoint, NotTried, 0, Some(at), None)
  }

  predicate Terminal(d: Delivery) {
    d.status == Delivered || d.status == GaveUp
  }

  function Power2(n: nat): nat {
    if n == 0 then 1 else 2 * Power2(n - 1)
  }

  function Delay(c: Config, attempts: nat): nat {
    var wanted := c.retryBase * Power2(if attempts == 0 then 0 else attempts - 1);
    if c.retryMax < wanted then c.retryMax else wanted
  }

  /** `retryAt`; `jitter` is the random part, at most a fifth of the delay. */
  function RetryAt(c: Config, at: Time, attempts: nat, jitter: nat): Time {
    at + (Delay(c, attempts) + jitter) * 1_000
  }

  lemma {:induction false} Power2Grows(m: nat, n: nat)
    requires m <= n
    ensures 1 <= Power2(m) <= Power2(n)
  {
    if m < n {
      Power2Grows(m, n - 1);
    } else if m > 0 {
      Power2Grows(m - 1, m - 1);
    }
  }

  lemma Product(k: nat, x: nat, y: nat)
    requires x <= y
    ensures k * x <= k * y
  {
  }

  /**
   The wait before a retry starts at the base, never shrinks with the attempts, never exceeds
   the greatest wait by more than the jitter, and no retry comes before its attempt ended.
   */
  lemma RetryDelays(c: Config, at: Time, m: nat, n: nat, jitter: nat)
    requires 1 <= m <= n && 5 * jitter <= Delay(c, n)
    ensures Delay(c, 1) == (if c.retryMax < c.retryBase then c.retryMax else c.retryBase)
    ensures Delay(c, m) <= Delay(c, n) <= c.retryMax
    ensures at <= at + 1_000 * Delay(c, n) <= RetryAt(c, at, n, jitter) <= at + 1_200 * c.retryMax
  {
    Power2Grows(m - 1, n - 1);
    Product(c.retryBase, Power2(m - 1), Power2(n - 1));
  }

  /** What came of the endpoint: it may no longer be sent to, or the transport answered at some time. */
  datatype Answer =
    | EndpointGone
    | Accepted(completedAt: Time)
    | Refused(completedAt: Time, retryable: bool, jitter: nat)

  predicate Skipped(d: Delivery, now: Time) {
    Terminal(d) || (d.nextAttempt.Some? && d.nextAttempt.value > now)
  }

  function Answered(c: Config, d: Delivery, answer: Answer): Delivery {
    match answer
    case EndpointGone => d.(status := GaveUp, nextAttempt := None)
    case Accepted(at) => d.(status := Delivered, attempts := d.attempts + 1, nextAttempt := None, deliveredAt := Some(at))
    case Refused(at, retryable, jitter) =>
      if retryable && d.attempts + 1 < c.maxAttempts
      then d.(status := Retrying, attempts := d.attempts + 1, nextAttempt := Some(RetryAt(c, at, d.attempts + 1, jitter)))
      else d.(status := GaveUp, attempts := d.attempts + 1, nextAttempt := None)
  }

  /** One pass of the loop over one delivery at time `now`. */
  function Advance(c: Config, d: Delivery, now: Time, answer: Answer): Delivery {
    if Skipped(d, now) then d else Answered(c, d, answer)
  }

  // ------------------------------------------------------------------ one event

  function FindDelivery(deliveries: seq<Delivery>, endpoint: Id): Option<Delivery> {
    if deliveries == [] then None
    else if deliveries[|deliveries| - 1].endpoint == endpoint then Some(deliveries[|deliveries| - 1])
    else FindDelivery(deliveries[..|deliveries| - 1], endpoint)
  }

  function DeliveryFor(e: Event, endpoint: Id): Delivery {
    match FindDelivery(e.deliveries, endpoint)
    case Some(d) => d
    case None => NewDelivery(endpoint, e.createdAt)
  }

  /** The list a worker starts from: one delivery per endpoint, stored or new. */
  function WorkList(e: Event): (r: seq<Delivery>)
    ensures |r| == |e.endpoints|
  {
    seq(|e.endpoints|, k requires 0 <= k < |e.endpoints| => DeliveryFor(e, e.endpoints[k]))
  }

  predicate IsRetry(d: Delivery) {
    d.status == Retrying && d.nextAttempt.Some?
  }

  predicate HasRetry(deliveries: seq<Delivery>) {
    exists k :: 0 <= k < |deliveries| && IsRetry(deliveries[k])
  }

  predicate HasGivenUp(deliveries: seq<Delivery>) {
    exists k :: 0 <= k < |deliveries| && deliveries[k].status == GaveUp
  }

  function StatusOf(deliveries: seq<Delivery>): EventStatus {
    if HasRetry(deliveries) then Pending else if HasGivenUp(deliveries) then Failed else Published
  }

  /** The earliest retry, if there is one. */
  function FirstRetry(deliveries: seq<Delivery>): Option<Time> {
    if deliveries == [] then None
    else
      var rest := FirstRetry(deliveries[..|deliveries| - 1]);
      var d := deliveries[|deliveries| - 1];
      if !IsRetry(d) then rest
      else if rest.Some? && rest.value < d.nextAttempt.value then rest
      else d.nextAttempt
  }

  lemma {:induction false} FirstRetryIs(deliveries: seq<Delivery>)
    ensures FirstRetry(deliveries).Some? <==> HasRetry(deliveries)
    ensures FirstRetry(deliveries).Some? ==>
              exists k :: 0 <= k < |deliveries| && IsRetry(deliveries[k]) && deliveries[k].nextAttempt == FirstRetry(deliveries)
    ensures forall k :: 0 <= k < |deliveries| && IsRetry(deliveries[k]) ==>
              FirstRetry(deliveries).Some? && FirstRetry(deliveries).value <= deliveries[k].nextAttempt.value
  {
    if deliveries != [] {
      var n := |deliveries| - 1;
      FirstRetryIs(deliveries[..n]);
      assert forall k :: 0 <= k < n ==> deliveries[..n][k] == deliveries[k];
      if IsRetry(deliveries[n]) && FirstRetry(deliveries) == deliveries[n].nextAttempt {
        assert IsRetry(deliveries[n]);
      }
    }
  }

  function AvailableAt(deliveries: seq<Delivery>, now: Time): Time {
    match FirstRetry(deliveries)
    case Some(t) => t
    case None => now
  }

  /** Which deliveries are where after a pass: the loop overwrites the list in place. */
  function AdvanceAll(c: Config, deliveries: seq<Delivery>, times: seq<Time>, answers: seq<Answer>): (r: seq<Delivery>)
    requires |times| == |answers| == |deliveries|
    ensures |r| == |deliveries|
  {
    seq(|deliveries|, k requires 0 <= k < |deliveries| => Advance(c, deliveries[k], times[k], answers[k]))
  }

  /** The loop of `processClaimedEvent`, with the clock readings and the answers it gets. */
  method ProcessDeliveries(c: Config, deliveries: array<Delivery>, times: seq<Time>, answers: seq<Answer>)
    requires |times| == |answers| == deliveries.Length
    modifies deliveries
    ensures deliveries[..] == AdvanceAll(c, old(deliveries[..]), times, answers)
  {
    for index := 0 to deliveries.Length
      invariant forall k :: 0 <= k < index ==> deliveries[k] == Advance(c, old(deliveries[k]), times[k], answers[k])
      invariant forall k :: index <= k < deliveries.Length ==> deliveries[k] == old(deliveries[k])
    {
      var delivery := deliveries[index];
      if !(delivery.status == Delivered || delivery.status == GaveUp
           || (delivery.nextAttempt.Some? && delivery.nextAttempt.value > times[index])) {
        deliveries[index] := Answered(c, delivery, answers[index]);
      }
    }
  }

  lemma GivenUpSnoc(deliveries: seq<Delivery>, d: Delivery)
    ensures HasGivenUp(deliveries + [d]) <==> HasGivenUp(deliveries) || d.status == GaveUp
  {
    var all := deliveries + [d];
    assert all[|deliveries|] == d;
    assert forall k :: 0 <= k < |deliveries| ==> all[k] == deliveries[k];
  }

  /** The status and the next date a worker saves, computed in one scan. */
  method Summary(deliveries: seq<Delivery>, now: Time) returns (status: EventStatus, availableAt: Time)
    ensures status == StatusOf(deliveries) && availableAt == AvailableAt(deliveries, now)
  {
    var first: Option<Time>, failed := None, false;
    for k := 0 to |deliveries|
      invariant first == FirstRetry(deliveries[..k])
      invariant failed <==> HasGivenUp(deliveries[..k])
    {
      assert deliveries[..k + 1] == deliveries[..k] + [deliveries[k]];
      var d := deliveries[k];
      if IsRetry(d) && (first == None || d.nextAttempt.value <= first.value) {
        first := d.nextAttempt;
      }
      failed := failed || d.status == GaveUp;
      GivenUpSnoc(deliveries[..k], d);
    }
    assert deliveries[..|deliveries|] == deliveries;
    FirstRetryIs(deliveries);
    status := if first.Some? then Pending else if failed then Failed else Published;
    availableAt := if first.Some? then first.value else now;
  }

  // ------------------------------------------------------- the store's conditional updates

  predicate Claimable(e: Event, now: Time) {
    (e.status == Pending && e.availableAt <= now)
    || (e.status == Processing && e.lockedUntil.Some? && e.lockedUntil.value <= now)
  }

  /** `_id` breaks ties between equal dates. */
  predicate Sooner(a: Event, b: Event) {
    a.availableAt < b.availableAt || (a.availableAt == b.availableAt && a.id <= b.id)
  }

  /** The event a claim takes: the first claimable one. */
  predicate IsNext(events: Table, now: Time, id: Id) {
    id in events && Claimable(events[id], now)
    && forall k :: k in events && Claimable(events[k], now) ==> Sooner(events[id], events[k])
  }

  function Claimed(e: Event, w: Worker, now: Time, leaseMs: nat): Event {
    e.(status := Processing, lockedBy := Some(w), lockedUntil := Some(now + leaseMs), claims := e.claims + 1)
  }

  predicate Owns(e: Event, w: Worker) {
    e.status == Processing && e.lockedBy == Some(w)
  }

  function Saved(e: Event, deliveries: seq<Delivery>, now: Time): Event {
    e.(status := StatusOf(deliveries), deliveries := deliveries, availableAt := AvailableAt(deliveries, now),
       publishedAt := if StatusOf(deliveries) == Published then Some(now) else None, lockedBy := None, lockedUntil := None)
  }

  predicate GaveUpOn(d: Delivery, endpoint: Id) {
    d.endpoint == endpoint && d.status == GaveUp
  }

  predicate CanRetry(e: Event, endpoint: Id) {
    exists k :: 0 <= k < |e.deliveries| && GaveUpOn(e.deliveries[k], endpoint)
  }

  function Rescheduled(d: Delivery, endpoint: Id, now: Time): Delivery {
    if GaveUpOn(d, endpoint) then d.(status := Retrying, nextAttempt := Some(now), attempts := 0) else d
  }

  function RescheduleAll(deliveries: seq<Delivery>, endpoint: Id, now: Time): (r: seq<Delivery>)
    ensures |r| == |deliveries|
  {
    seq(|deliveries|, k requires 0 <= k < |deliveries| => Rescheduled(deliveries[k], endpoint, now))
  }

  function RetryScheduled(e: Event, endpoint: Id, now: Time): Event {
    e.(status := Pending, availableAt := now, lockedBy := None, lockedUntil := None, publishedAt := None,
       deliveries := RescheduleAll(e.deliveries, endpoint, now))
  }

  class OutboxStore {
    var events: Table

    constructor ()
      ensures events == map[]
    {
      events := map[];
    }

    /** The first claimable event, found by one scan. */
    method FindNext(now: Time) returns (id: Option<Id>)
      requires forall k :: k in events ==> events[k].id == k
      ensures id.Some? ==> IsNext(events, now, id.value)
      ensures id == None ==> forall k :: k in events ==> !Claimable(events[k], now)
    {
      id := None;
      var left := events.Keys;
      while left != {}
        invariant left <= events.Keys
        invariant id.Some? ==> id.value in events && Claimable(events[id.value], now)
        invariant id.Some? ==> forall k :: k in events && k !in left && Claimable(events[k], now) ==> Sooner(events[id.value], events[k])
        invariant id == None ==> forall k :: k in events && k !in left ==> !Claimable(events[k], now)
        decreases left
      {
        var k :| k in left;
        left := left - {k};
        if Claimable(events[k], now) && (id == None || Sooner(events[k], events[id.value])) {
          id := Some(k);
        }
      }
    }

    /** `claimNext`. */
    method ClaimNext(w: Worker, now: Time, leaseMs: nat) returns (claimed: Option<Event>)
      requires forall k :: k in events ==> events[k].id == k
      modifies this
      ensures claimed.Some? ==> IsNext(old(events), now, claimed.value.id)
                                && claimed.value == Claimed(old(events)[claimed.value.id], w, now, leaseMs)
                                && events == old(events)[claimed.value.id := claimed.value]
      ensures claimed == None ==> events == old(events) && forall k :: k in events ==> !Claimable(events[k], now)
    {
      var id := FindNext(now);
      if id == None { return None; }
      events := events[id.value := Claimed(events[id.value], w, now, leaseMs)];
      return Some(events[id.value]);
    }

    /** `renewLease`. */
    method RenewLease(id: Id, w: Worker, now: Time, leaseMs: nat) returns (renewed: bool)
      modifies this
      ensures renewed <==> id in old(events) && Owns(old(events)[id], w)
      ensures events == if renewed then old(events)[id := old(events)[id].(lockedUntil := Some(now + leaseMs))] else old(events)
    {
      renewed := id in events && events[id].status == Processing && events[id].lockedBy == Some(w);
      if renewed {
        events := events[id := events[id].(lockedUntil := Some(now + leaseMs))];
      }
    }

    /** `saveEvent`, with the status and dates the worker computed. */
    method SaveEvent(id: Id, w: Worker, deliveries: seq<Delivery>, now: Time) returns (saved: bool)
      modifies this
      ensures saved <==> id in old(events) && Owns(old(events)[id], w)
      ensures events == if saved then old(events)[id := Saved(old(events)[id], deliveries, now)] else old(events)
    {
      var status, availableAt := Summary(deliveries, now);
      saved := id in events && events[id].status == Processing && events[id].lockedBy == Some(w);
      if saved {
        events := events[id := events[id].(
          status := status, deliveries := deliveries, availableAt := availableAt,
          publishedAt := if status == Published then Some(now) else None, lockedBy := None, lockedUntil := None)];
      }
    }

    /** `scheduleRetry`. */
    method ScheduleRetry(id: Id, endpoint: Id, now: Time) returns (scheduled: bool)
      modifies this
      ensures scheduled <==> id in old(events) && CanRetry(old(events)[id], endpoint)
      ensures events == if scheduled then old(events)[id := RetryScheduled(old(events)[id], endpoint, now)] else old(events)
    {
      scheduled := id in events && CanRetry(events[id], endpoint);
      if scheduled {
        events := events[id := RetryScheduled(events[id], endpoint, now)];
      }
    }
  }
}
