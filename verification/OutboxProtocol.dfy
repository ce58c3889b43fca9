/**
 Several workers, each busy with one event at a time, an administrator and the clock, all
 acting on the outbox: what they keep, and why every event comes to an end.
 */
module OutboxProtocol {
  import opened Base
  import opened Outbox

  /**
   What a worker holds of the event it claimed; `stored` and `claimedAt` are what it claimed
   and when, and `renewed` is when its lease was last renewed for the send it is about to make.
   */
  datatype Work = Work(
    event: Id,
    stored: Event,
    claimedAt: Time,
    deliveries: seq<Delivery>,
    index: nat,
    renewed: Option<Time>
  )

  datatype World = World(events: Table, workers: map<Worker, Work>, clock: Time)

  /** `at` is when a step read the clock, some time before it takes effect. */
  datatype Step =
    | Tick(to: Time)
    | Enqueue(id: Id, endpoints: seq<Id>)
    | Claim(worker: Worker, event: Id, at: Time)
    | Renew(worker: Worker, at: Time)
    | Skip(worker: Worker, at: Time)
    | Advancing(worker: Worker, answer: Answer)
    | Save(worker: Worker)
    | Crash(worker: Worker)
    | Retry(event: Id, endpoint: Id)

  predicate Distinct(ids: seq<Id>) {
    forall i, j :: 0 <= i < j < |ids| ==> ids[i] != ids[j]
  }

  /** The delivery the worker looks at is over or not due yet. */
  predicate Skips(w: Work, at: Time) {
    w.index < |w.deliveries| && Skipped(w.deliveries[w.index], at)
  }

  /** It must be sent to, so the lease is renewed first. */
  predicate MustSend(w: Work, at: Time) {
    w.index < |w.deliveries| && !Skipped(w.deliveries[w.index], at)
  }

  /** A worker with work does one thing after another; an idle one may claim. */
  predicate Possible(c: Config, s: World, step: Step) {
    match step
    case Tick(to) => s.clock <= to
    case Enqueue(id, endpoints) => id !in s.events && Distinct(endpoints)
    case Claim(w, id, at) => w !in s.workers && at <= s.clock && IsNext(s.events, at, id)
    case Renew(w, at) =>
      w in s.workers && s.workers[w].renewed == None && s.workers[w].claimedAt <= at <= s.clock && MustSend(s.workers[w], at)
    case Skip(w, at) =>
      w in s.workers && s.workers[w].renewed == None && s.workers[w].claimedAt <= at <= s.clock && Skips(s.workers[w], at)
    case Advancing(w, answer) => w in s.workers && s.workers[w].renewed.Some? && s.workers[w].index < |s.workers[w].deliveries|
    case Save(w) => w in s.workers && s.workers[w].index == |s.workers[w].deliveries|
    case Crash(w) => w in s.workers
    case Retry(id, endpoint) => true
  }

  function NewEvent(id: Id, endpoints: seq<Id>, now: Time): Event {
    Event(id, endpoints, now, Pending, 0, now, None, None, None, [])
  }

  function Idle(s: World, w: Worker): World {
    s.(workers := s.workers - {w})
  }

  function RenewStep(c: Config, s: World, w: Worker, at: Time): World
    requires w in s.workers
  {
    var work := s.workers[w];
    if work.event in s.events && Owns(s.events[work.event], w) then
      s.(events := s.events[work.event := s.events[work.event].(lockedUntil := Some(at + c.leaseMs))],
         workers := s.workers[w := work.(renewed := Some(at))])
    else Idle(s, w)
  }

  function SaveStep(s: World, w: Worker): World
    requires w in s.workers
  {
    var work := s.workers[w];
    if work.event in s.events && Owns(s.events[work.event], w) then
      Idle(s.(events := s.events[work.event := Saved(s.events[work.event], work.deliveries, s.clock)]), w)
    else Idle(s, w)
  }

  function Advanced(w: Work, d: Delivery): Work
    requires w.index < |w.deliveries|
  {
    w.(deliveries := w.deliveries[w.index := d], index := w.index + 1, renewed := None)
  }

  function Next(c: Config, s: World, step: Step): World
    requires Possible(c, s, step)
  {
    match step
    case Tick(to) => s.(clock := to)
    case Enqueue(id, endpoints) => s.(events := s.events[id := NewEvent(id, endpoints, s.clock)])
    case Claim(w, id, at) =>
      var claimed := Claimed(s.events[id], w, at, c.leaseMs);
      s.(events := s.events[id := claimed],
         workers := s.workers[w := Work(id, claimed, at, WorkList(claimed), 0, None)])
    case Renew(w, at) => RenewStep(c, s, w, at)
    case Skip(w, _) => s.(workers := s.workers[w := Advanced(s.workers[w], s.workers[w].deliveries[s.workers[w].index])])
    case Advancing(w, answer) =>
      s.(workers := s.workers[w := Advanced(s.workers[w], Answered(c, s.workers[w].deliveries[s.workers[w].index], answer))])
    case Save(w) => SaveStep(s, w)
    case Crash(w) => Idle(s, w)
    case Retry(id, endpoint) =>
      if id in s.events && CanRetry(s.events[id], endpoint)
      then s.(events := s.events[id := RetryScheduled(s.events[id], endpoint, s.clock)])
      else s
  }

  // ------------------------------------------------------------------- the invariant

  /** A delivery as the store holds it: tried at least once, and a date exactly while it will be tried again. */
  predicate StoredOk(c: Config, d: Delivery) {
    && d.status != NotTried && d.attempts <= c.maxAttempts
    && (d.status == Retrying <==> d.nextAttempt.Some?)
    && (d.status == Retrying ==> d.attempts < c.maxAttempts)
  }

  /** A delivery as a worker lists it. */
  predicate ListedOk(c: Config, d: Delivery) {
    if d.status == NotTried then d.attempts == 0 && d.nextAttempt.Some? else StoredOk(c, d)
  }

  /** Nothing stored yet, or one delivery per endpoint in the event's order. */
  predicate Aligned(e: Event) {
    e.deliveries == [] || (|e.deliveries| == |e.endpoints| && forall k :: 0 <= k < |e.deliveries| ==> e.deliveries[k].endpoint == e.endpoints[k])
  }

  predicate AllStoredOk(c: Config, deliveries: seq<Delivery>) {
    forall k :: 0 <= k < |deliveries| ==> StoredOk(c, deliveries[k])
  }

  predicate HasDue(deliveries: seq<Delivery>, at: Time) {
    exists k :: 0 <= k < |deliveries| && IsRetry(deliveries[k]) && deliveries[k].nextAttempt.value <= at
  }

  /** The event's date has come for one of its deliveries, or none was tried yet. */
  predicate Due(e: Event, at: Time) {
    e.availableAt <= at && (if e.deliveries == [] then e.availableAt == e.createdAt else HasDue(e.deliveries, e.availableAt))
  }

  /** How an event's status, dates and deliveries belong together. */
  predicate EventOk(c: Config, e: Event, now: Time) {
    && Distinct(e.endpoints) && Aligned(e) && AllStoredOk(c, e.deliveries) && e.createdAt <= now
    && (e.status == Processing <==> e.lockedBy.Some?)
    && (e.status == Processing <==> e.lockedUntil.Some?)
    && match e.status
       case Pending => Due(e, e.availableAt)
       case Processing => Due(e, e.lockedUntil.value)
       case Published => |e.deliveries| == |e.endpoints| && forall k :: 0 <= k < |e.deliveries| ==> e.deliveries[k].status == Delivered
       case Failed => HasGivenUp(e.deliveries) && !HasRetry(e.deliveries)
  }

  /** How a worker's own sends may move a delivery since it claimed the event. */
  predicate Moved(c: Config, before: Delivery, after: Delivery, since: Time) {
    && after.endpoint == before.endpoint
    && (Terminal(before) ==> after == before)
    && (!Terminal(before) && after == before ==> IsRetry(before) && before.nextAttempt.value > since)
    && (!Terminal(before) && after != before ==>
          StoredOk(c, after) && before.attempts <= after.attempts <= before.attempts + 1 && (after.status == Retrying ==> after.attempts == before.attempts + 1))
  }

  /** A worker's list: what it claimed, moved by its own sends up to the index. */
  predicate WorkOk(c: Config, w: Work, now: Time) {
    && w.claimedAt <= now
    && Distinct(w.stored.endpoints) && Aligned(w.stored) && AllStoredOk(c, w.stored.deliveries) && Due(w.stored, w.claimedAt)
    && |w.deliveries| == |w.stored.endpoints| && w.index <= |w.deliveries|
    && (forall k :: 0 <= k < w.index ==> Moved(c, WorkList(w.stored)[k], w.deliveries[k], w.claimedAt))
    && (forall k :: w.index <= k < |w.deliveries| ==> w.deliveries[k] == WorkList(w.stored)[k])
    && (w.renewed.Some? ==> w.index < |w.deliveries| && !Terminal(w.deliveries[w.index]))
  }

  /** While a worker owns its event, nobody else has written it since the claim. */
  predicate Fenced(w: Worker, work: Work, events: Table) {
    && work.event in events
    && (Owns(events[work.event], w) ==> events[work.event] == work.stored.(lockedUntil := events[work.event].lockedUntil))
  }

  predicate Inv(c: Config, s: World) {
    && (forall id :: id in s.events ==> s.events[id].id == id && EventOk(c, s.events[id], s.clock))
    && (forall w :: w in s.workers ==> WorkOk(c, s.workers[w], s.clock) && Fenced(w, s.workers[w], s.events))
  }

  // ----------------------------------------------------------------------- work lists

  lemma {:induction false} FindAligned(deliveries: seq<Delivery>, endpoints: seq<Id>, k: nat)
    requires |deliveries| == |endpoints| && Distinct(endpoints) && k < |deliveries|
    requires forall m :: 0 <= m < |deliveries| ==> deliveries[m].endpoint == endpoints[m]
    ensures FindDelivery(deliveries, endpoints[k]) == Some(deliveries[k])
  {
    var n := |deliveries| - 1;
    if k < n {
      assert endpoints[n] != endpoints[k];
      FindAligned(deliveries[..n], endpoints[..n], k);
    }
  }

  /** The list is what is stored, or a new delivery for every endpoint. */
  lemma WorkListIs(e: Event, k: nat)
    requires Distinct(e.endpoints) && Aligned(e) && k < |e.endpoints|
    ensures WorkList(e)[k] == if e.deliveries == [] then NewDelivery(e.endpoints[k], e.createdAt) else e.deliveries[k]
  {
    if e.deliveries != [] {
      FindAligned(e.deliveries, e.endpoints, k);
    }
  }

  lemma ListIsOk(c: Config, e: Event, k: nat)
    requires Distinct(e.endpoints) && Aligned(e) && AllStoredOk(c, e.deliveries) && k < |e.endpoints|
    ensures ListedOk(c, WorkList(e)[k]) && WorkList(e)[k].endpoint == e.endpoints[k]
    ensures WorkList(e)[k].status == NotTried ==> WorkList(e)[k].nextAttempt == Some(e.createdAt)
  {
    WorkListIs(e, k);
  }

  lemma AnsweredMoves(c: Config, d: Delivery, answer: Answer, since: Time)
    requires ConfigOk(c) && ListedOk(c, d) && !Terminal(d)
    ensures Moved(c, d, Answered(c, d, answer), since) && Answered(c, d, answer) != d
  {
  }

  // ------------------------------------------------------------------- saving an event

  /** What a worker has after the last delivery is what the store may hold. */
  lemma WorkDone(c: Config, w: Work, now: Time)
    requires WorkOk(c, w, now) && w.index == |w.deliveries|
    ensures AllStoredOk(c, w.deliveries)
    ensures forall k :: 0 <= k < |w.deliveries| ==> w.deliveries[k].endpoint == w.stored.endpoints[k]
  {
    forall k | 0 <= k < |w.deliveries|
      ensures StoredOk(c, w.deliveries[k]) && w.deliveries[k].endpoint == w.stored.endpoints[k]
    {
      ListIsOk(c, w.stored, k);
      assert Moved(c, WorkList(w.stored)[k], w.deliveries[k], w.claimedAt);
    }
  }

  lemma SavedDue(deliveries: seq<Delivery>, now: Time)
    requires HasRetry(deliveries)
    ensures HasDue(deliveries, AvailableAt(deliveries, now))
  {
    FirstRetryIs(deliveries);
  }

  lemma SavedOk(c: Config, e: Event, w: Work, now: Time)
    requires EventOk(c, e, now) && WorkOk(c, w, now) && w.index == |w.deliveries| && e.endpoints == w.stored.endpoints
    ensures EventOk(c, Saved(e, w.deliveries, now), now)
  {
    WorkDone(c, w, now);
    if HasRetry(w.deliveries) {
      SavedDue(w.deliveries, now);
    }
  }

  // -------------------------------------------------------------------------- each step

  lemma TickKeeps(c: Config, s: World, to: Time)
    requires Inv(c, s) && s.clock <= to
    ensures Inv(c, s.(clock := to))
  {
  }

  /** Writing an event that no other worker owns afterwards leaves the other workers' claims as they are. */
  lemma OthersFenced(workers: map<Worker, Work>, events: Table, id: Id, e: Event, but: Option<Worker>)
    requires forall w :: w in workers && Some(w) != but ==> Fenced(w, workers[w], events) && !Owns(e, w)
    ensures forall w :: w in workers && Some(w) != but ==> Fenced(w, workers[w], events[id := e])
  {
  }

  lemma EnqueueKeeps(c: Config, s: World, id: Id, endpoints: seq<Id>)
    requires Inv(c, s) && Possible(c, s, Enqueue(id, endpoints))
    ensures Inv(c, Next(c, s, Enqueue(id, endpoints)))
  {
  }

  lemma ClaimedOk(c: Config, e: Event, w: Worker, at: Time, now: Time)
    requires EventOk(c, e, now) && Claimable(e, at) && at <= now
    ensures EventOk(c, Claimed(e, w, at, c.leaseMs), now)
    ensures WorkOk(c, Work(e.id, Claimed(e, w, at, c.leaseMs), at, WorkList(Claimed(e, w, at, c.leaseMs)), 0, None), now)
  {
  }

  lemma ClaimKeeps(c: Config, s: World, w: Worker, id: Id, at: Time)
    requires Inv(c, s) && Possible(c, s, Claim(w, id, at))
    ensures Inv(c, Next(c, s, Claim(w, id, at)))
  {
    ClaimedOk(c, s.events[id], w, at, s.clock);
    OthersFenced(s.workers, s.events, id, Claimed(s.events[id], w, at, c.leaseMs), None);
  }

  lemma RenewKeeps(c: Config, s: World, w: Worker, at: Time)
    requires Inv(c, s) && Possible(c, s, Renew(w, at))
    ensures Inv(c, Next(c, s, Renew(w, at)))
  {
    assert Fenced(w, s.workers[w], s.events);
  }

  lemma AdvancedOk(c: Config, w: Work, d: Delivery, now: Time)
    requires WorkOk(c, w, now) && w.index < |w.deliveries| && Moved(c, w.deliveries[w.index], d, w.claimedAt)
    ensures WorkOk(c, Advanced(w, d), now)
  {
  }

  lemma AdvancedKeeps(c: Config, s: World, w: Worker, d: Delivery)
    requires Inv(c, s) && w in s.workers && s.workers[w].index < |s.workers[w].deliveries|
    requires Moved(c, s.workers[w].deliveries[s.workers[w].index], d, s.workers[w].claimedAt)
    ensures Inv(c, s.(workers := s.workers[w := Advanced(s.workers[w], d)]))
  {
    AdvancedOk(c, s.workers[w], d, s.clock);
    assert Fenced(w, s.workers[w], s.events);
  }

  lemma SkipMoves(c: Config, w: Work, at: Time, now: Time)
    requires WorkOk(c, w, now) && w.claimedAt <= at && Skips(w, at)
    ensures Moved(c, w.deliveries[w.index], w.deliveries[w.index], w.claimedAt)
  {
    ListIsOk(c, w.stored, w.index);
    WorkListIs(w.stored, w.index);
  }

  lemma AdvancingKeeps(c: Config, s: World, w: Worker, answer: Answer)
    requires ConfigOk(c) && Inv(c, s) && Possible(c, s, Advancing(w, answer))
    ensures Inv(c, Next(c, s, Advancing(w, answer)))
  {
    var work := s.workers[w];
    ListIsOk(c, work.stored, work.index);
    AnsweredMoves(c, work.deliveries[work.index], answer, work.claimedAt);
    AdvancedKeeps(c, s, w, Answered(c, work.deliveries[work.index], answer));
  }

  lemma SaveKeeps(c: Config, s: World, w: Worker)
    requires Inv(c, s) && Possible(c, s, Save(w))
    ensures Inv(c, Next(c, s, Save(w)))
  {
    var work := s.workers[w];
    assert Fenced(w, work, s.events);
    if Owns(s.events[work.event], w) {
      SavedOk(c, s.events[work.event], work, s.clock);
      OthersFenced(s.workers, s.events, work.event, Saved(s.events[work.event], work.deliveries, s.clock), None);
    }
  }

  lemma RescheduledOk(c: Config, e: Event, endpoint: Id, now: Time)
    requires ConfigOk(c) && EventOk(c, e, now) && CanRetry(e, endpoint)
    ensures EventOk(c, RetryScheduled(e, endpoint, now), now)
  {
  }

  lemma RetryKeeps(c: Config, s: World, id: Id, endpoint: Id)
    requires ConfigOk(c) && Inv(c, s)
    ensures Inv(c, Next(c, s, Retry(id, endpoint)))
  {
    if id in s.events && CanRetry(s.events[id], endpoint) {
      RescheduledOk(c, s.events[id], endpoint, s.clock);
      OthersFenced(s.workers, s.events, id, RetryScheduled(s.events[id], endpoint, s.clock), None);
    }
  }

  /** Every step keeps the fences, the dates and the statuses. */
  lemma StepKeeps(c: Config, s: World, step: Step)
    requires ConfigOk(c) && Inv(c, s) && Possible(c, s, step)
    ensures Inv(c, Next(c, s, step))
  {
    match step
    case Tick(to) => TickKeeps(c, s, to);
    case Enqueue(id, endpoints) => EnqueueKeeps(c, s, id, endpoints);
    case Claim(w, id, at) => ClaimKeeps(c, s, w, id, at);
    case Renew(w, at) => RenewKeeps(c, s, w, at);
    case Skip(w, at) =>
      SkipMoves(c, s.workers[w], at, s.clock);
      AdvancedKeeps(c, s, w, s.workers[w].deliveries[s.workers[w].index]);
    case Advancing(w, answer) => AdvancingKeeps(c, s, w, answer);
    case Save(w) => SaveKeeps(c, s, w);
    case Crash(w) =>
    case Retry(id, endpoint) => RetryKeeps(c, s, id, endpoint);
  }
}
