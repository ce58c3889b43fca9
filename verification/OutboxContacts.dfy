/**
 When an endpoint is contacted again although its success is stored. A worker renews its
 lease right before each send, but the send itself is not fenced: while it is under way the
 lease may run out, or an administrator's retry of another endpoint may clear the lock, and
 another worker may deliver the event and save it. Here are both runs, and why there is no
 other way.
 */
module OutboxContacts {
  import opened Base
  import opened Outbox
  import opened OutboxProtocol
  import opened OutboxTheorems

  // ------------------------------------------------------------------ the two conditions

  /** An endpoint of the event is contacted: the worker was not told that it is gone. */
  predicate Contacts(c: Config, s: World, step: Step) {
    step.Advancing? && Possible(c, s, step) && step.answer != EndpointGone
  }

  function EndpointOf(w: Work): Id
    requires w.index < |w.deliveries|
  {
    w.deliveries[w.index].endpoint
  }

  predicate StoredDelivered(s: World, id: Id, endpoint: Id) {
    id in s.events && DeliveryFor(s.events[id], endpoint).status == Delivered
  }

  /** A contact of an endpoint whose success is stored. */
  predicate ContactsAgain(c: Config, s: World, step: Step) {
    Contacts(c, s, step) && StoredDelivered(s, s.workers[step.worker].event, EndpointOf(s.workers[step.worker]))
  }

  /** The send ends at most `limit` after the lease was renewed for it. */
  predicate EndsWithin(c: Config, s: World, step: Step, limit: nat) {
    Contacts(c, s, step) ==> s.clock <= s.workers[step.worker].renewed.value + limit
  }

  /** No retry of an event while a worker is sending it. */
  predicate Calm(s: World, step: Step) {
    step.Retry? && step.event in s.events && CanRetry(s.events[step.event], step.endpoint) ==>
      forall w :: w in s.workers && s.workers[w].event == step.event ==> s.workers[w].renewed == None
  }

  predicate WithinRun(c: Config, s: World, steps: seq<Step>, limit: nat) {
    forall n :: 0 <= n < |steps| ==> EndsWithin(c, Run(c, s, steps[..n]), steps[n], limit)
  }

  predicate CalmRun(c: Config, s: World, steps: seq<Step>) {
    forall n :: 0 <= n < |steps| ==> Calm(Run(c, s, steps[..n]), steps[n])
  }

  predicate NeverAgain(c: Config, s: World, steps: seq<Step>) {
    forall n :: 0 <= n < |steps| ==> !ContactsAgain(c, Run(c, s, steps[..n]), steps[n])
  }

  // ---------------------------------------------------------------------- the safe half

  /** As long as the lease it renewed has not run out, the worker owns its event. */
  predicate LeaseHeld(c: Config, w: Worker, work: Work, events: Table, now: Time) {
    work.renewed.Some? && now < work.renewed.value + c.leaseMs ==>
      work.event in events && Owns(events[work.event], w) && events[work.event].lockedUntil == Some(work.renewed.value + c.leaseMs)
  }

  predicate LeasesHeld(c: Config, s: World) {
    forall w :: w in s.workers ==> LeaseHeld(c, w, s.workers[w], s.events, s.clock)
  }

  /** A worker that owns its event sends only to endpoints the store does not have as delivered. */
  lemma OwnerContactsUndelivered(c: Config, s: World, step: Step)
    requires Inv(c, s) && Contacts(c, s, step) && s.workers[step.worker].event in s.events
    requires Owns(s.events[s.workers[step.worker].event], step.worker)
    ensures !ContactsAgain(c, s, step)
  {
    var work := s.workers[step.worker];
    assert Fenced(step.worker, work, s.events);
    ListIsOk(c, work.stored, work.index);
    assert WorkList(s.events[work.event])[work.index] == WorkList(work.stored)[work.index];
  }

  lemma LeaseKept(c: Config, s: World, step: Step, w: Worker)
    requires Inv(c, s) && LeasesHeld(c, s) && Possible(c, s, step) && Calm(s, step)
    requires w in s.workers && w in Next(c, s, step).workers
    requires s.workers[w].renewed.Some? && Next(c, s, step).workers[w] == s.workers[w]
    ensures LeaseHeld(c, w, s.workers[w], Next(c, s, step).events, Next(c, s, step).clock)
  {
    assert LeaseHeld(c, w, s.workers[w], s.events, s.clock);
    assert Fenced(w, s.workers[w], s.events);
    assert WorkOk(c, s.workers[w], s.clock);
  }

  lemma LeaseTaken(c: Config, s: World, w: Worker, at: Time)
    requires Inv(c, s) && Possible(c, s, Renew(w, at)) && w in Next(c, s, Renew(w, at)).workers
    ensures LeaseHeld(c, w, Next(c, s, Renew(w, at)).workers[w], Next(c, s, Renew(w, at)).events, Next(c, s, Renew(w, at)).clock)
  {
  }

  /** Only its own renewal gives a worker a new lease. */
  lemma LeaseSource(c: Config, s: World, step: Step, w: Worker)
    requires Possible(c, s, step) && w in Next(c, s, step).workers && Next(c, s, step).workers[w].renewed.Some?
    ensures (step.Renew? && step.worker == w) || (w in s.workers && s.workers[w] == Next(c, s, step).workers[w])
  {
  }

  lemma StepHolds(c: Config, s: World, step: Step)
    requires Inv(c, s) && LeasesHeld(c, s) && Possible(c, s, step) && Calm(s, step)
    ensures LeasesHeld(c, Next(c, s, step))
  {
    var t := Next(c, s, step);
    forall w | w in t.workers
      ensures LeaseHeld(c, w, t.workers[w], t.events, t.clock)
    {
      if t.workers[w].renewed.Some? {
        LeaseSource(c, s, step, w);
        if step.Renew? && step.worker == w {
          LeaseTaken(c, s, w, step.at);
        } else {
          LeaseKept(c, s, step, w);
        }
      }
    }
  }

  lemma {:induction false} RunHolds(c: Config, s: World, steps: seq<Step>)
    requires ConfigOk(c) && Inv(c, s) && LeasesHeld(c, s) && CalmRun(c, s, steps)
    ensures LeasesHeld(c, Run(c, s, steps))
  {
    if steps != [] {
      var init := steps[..|steps| - 1];
      assert forall n :: 0 <= n < |init| ==> init[..n] == steps[..n] && init[n] == steps[n];
      RunHolds(c, s, init);
      RunKeeps(c, s, init);
      if Possible(c, Run(c, s, init), steps[|steps| - 1]) {
        StepHolds(c, Run(c, s, init), steps[|steps| - 1]);
      }
    }
  }

  lemma ContactIsFirst(c: Config, s: World, step: Step, limit: nat)
    requires Inv(c, s) && LeasesHeld(c, s) && EndsWithin(c, s, step, limit) && limit < c.leaseMs
    ensures !ContactsAgain(c, s, step)
  {
    if Contacts(c, s, step) {
      assert LeaseHeld(c, step.worker, s.workers[step.worker], s.events, s.clock);
      OwnerContactsUndelivered(c, s, step);
    }
  }

  lemma SafeHalf(c: Config, s: World, steps: seq<Step>, limit: nat)
    requires ConfigOk(c) && Inv(c, s) && LeasesHeld(c, s) && limit < c.leaseMs
    requires WithinRun(c, s, steps, limit) && CalmRun(c, s, steps)
    ensures NeverAgain(c, s, steps)
  {
    forall n | 0 <= n < |steps|
      ensures !ContactsAgain(c, Run(c, s, steps[..n]), steps[n])
    {
      var init := steps[..n];
      assert forall k :: 0 <= k < n ==> init[..k] == steps[..k] && init[k] == steps[k];
      RunKeeps(c, s, init);
      RunHolds(c, s, init);
      ContactIsFirst(c, Run(c, s, init), steps[n], limit);
    }
  }

  // -------------------------------------------------------------------- the failing runs

  const HOME := World(map[], map[], 0)

  /** A run from `HOME` that ends in `s` with every send within the limit, and calm if asked for. */
  ghost predicate Reaches(c: Config, steps: seq<Step>, s: World, limit: nat, calm: bool) {
    Run(c, HOME, steps) == s && WithinRun(c, HOME, steps, limit) && (calm ==> CalmRun(c, HOME, steps))
  }

  lemma Reach(c: Config, steps: seq<Step>, s: World, step: Step, limit: nat, calm: bool) returns (longer: seq<Step>)
    requires Reaches(c, steps, s, limit, calm) && EndsWithin(c, s, step, limit) && (calm ==> Calm(s, step))
    ensures longer == steps + [step] && Reaches(c, longer, Do(c, s, step), limit, calm)
  {
    longer := steps + [step];
    assert longer[..|steps|] == steps;
    assert forall n :: 0 <= n < |steps| ==> longer[..n] == steps[..n] && longer[n] == steps[n];
  }

  /** One event, just enqueued. */
  lemma Begins(c: Config, endpoints: seq<Id>, limit: nat, calm: bool) returns (steps: seq<Step>)
    requires Distinct(endpoints)
    ensures Reaches(c, steps, World(map[0 := NewEvent(0, endpoints, 0)], map[], 0), limit, calm)
  {
    EnqueueIs(c, endpoints);
    steps := Reach(c, [], HOME, Enqueue(0, endpoints), limit, calm);
  }

  lemma EnqueueIs(c: Config, endpoints: seq<Id>)
    requires Distinct(endpoints)
    ensures Do(c, HOME, Enqueue(0, endpoints)) == World(map[0 := NewEvent(0, endpoints, 0)], map[], 0)
  {
    assert HOME.events[0 := NewEvent(0, endpoints, 0)] == map[0 := NewEvent(0, endpoints, 0)];
  }

  lemma LastContact(c: Config, steps: seq<Step>, s: World, step: Step, limit: nat, calm: bool)
    requires Reaches(c, steps, s, limit, calm) && EndsWithin(c, s, step, limit) && (calm ==> Calm(s, step))
    requires ContactsAgain(c, s, step)
    ensures WithinRun(c, HOME, steps + [step], limit) && (calm ==> CalmRun(c, HOME, steps + [step]))
    ensures !NeverAgain(c, HOME, steps + [step])
  {
    var longer := Reach(c, steps, s, step, limit, calm);
    assert longer[..|steps|] == steps && longer[|steps|] == step;
  }

  // A worker whose lease runs out during its send.

  function Taken(c: Config, w: Worker, at: Time, claims: nat): Event {
    NewEvent(0, [5], 0).(status := Processing, lockedBy := Some(w), lockedUntil := Some(at + c.leaseMs), claims := claims)
  }

  /** The worker is about to send to the one endpoint. */
  function Sending(c: Config, w: Worker, at: Time, claims: nat): Work {
    Work(0, Taken(c, w, at, claims), at, [NewDelivery(5, 0)], 0, Some(at))
  }

  function Done(c: Config, w: Worker, at: Time, claims: nat): Work {
    Sending(c, w, at, claims).(deliveries := [Delivery(5, Delivered, 1, None, Some(at))], index := 1, renewed := None)
  }

  lemma TakenList(c: Config, w: Worker, at: Time, claims: nat)
    ensures WorkList(Taken(c, w, at, claims)) == [NewDelivery(5, 0)]
  {
  }

  lemma ClaimAndRenew(c: Config, s: World, w: Worker, claims: nat)
    requires w !in s.workers && 0 <= s.clock && s.events.Keys == {0}
    requires Claimable(s.events[0], s.clock) && Claimed(s.events[0], w, s.clock, c.leaseMs) == Taken(c, w, s.clock, claims)
    ensures Do(c, Do(c, s, Claim(w, 0, s.clock)), Renew(w, s.clock))
         == s.(events := map[0 := Taken(c, w, s.clock, claims)], workers := s.workers[w := Sending(c, w, s.clock, claims)])
  {
    TakenList(c, w, s.clock, claims);
    var t := Do(c, s, Claim(w, 0, s.clock));
    assert t.events == map[0 := Taken(c, w, s.clock, claims)];
  }

  function Published(c: Config, at: Time): Event {
    Saved(Taken(c, 2, at, 2), [Delivery(5, Delivered, 1, None, Some(at))], at)
  }

  lemma DeliverAndSave(c: Config, s: World, at: Time)
    requires s.events == map[0 := Taken(c, 2, at, 2)] && 2 in s.workers && s.workers[2] == Sending(c, 2, at, 2) && s.clock == at
    ensures var t := Do(c, s, Advancing(2, Accepted(at)));
            t == s.(workers := s.workers[2 := Done(c, 2, at, 2)])
            && Do(c, t, Save(2)) == World(map[0 := Published(c, at)], s.workers - {2}, at)
  {
    var t := Do(c, s, Advancing(2, Accepted(at)));
    assert [NewDelivery(5, 0)][0 := Delivery(5, Delivered, 1, None, Some(at))] == [Delivery(5, Delivered, 1, None, Some(at))];
    assert t.workers[2] == Done(c, 2, at, 2);
    assert t.workers - {2} == s.workers - {2};
    assert t.events[0 := Published(c, at)] == map[0 := Published(c, at)];
  }

  lemma TakesAndRenews(c: Config, steps: seq<Step>, s: World, w: Worker, claims: nat, limit: nat) returns (longer: seq<Step>)
    requires Reaches(c, steps, s, limit, true) && w !in s.workers && 0 <= s.clock && s.events.Keys == {0}
    requires Claimable(s.events[0], s.clock) && Claimed(s.events[0], w, s.clock, c.leaseMs) == Taken(c, w, s.clock, claims)
    ensures Reaches(c, longer, s.(events := map[0 := Taken(c, w, s.clock, claims)], workers := s.workers[w := Sending(c, w, s.clock, claims)]),
                    limit, true)
  {
    ClaimAndRenew(c, s, w, claims);
    longer := Reach(c, steps, s, Claim(w, 0, s.clock), limit, true);
    longer := Reach(c, longer, Do(c, s, Claim(w, 0, s.clock)), Renew(w, s.clock), limit, true);
  }

  lemma TakenIs(c: Config)
    ensures Claimable(NewEvent(0, [5], 0), 0) && Claimed(NewEvent(0, [5], 0), 1, 0, c.leaseMs) == Taken(c, 1, 0, 1)
  {
  }

  lemma FirstSends(c: Config, limit: nat) returns (steps: seq<Step>)
    ensures Reaches(c, steps, World(map[0 := Taken(c, 1, 0, 1)], map[1 := Sending(c, 1, 0, 1)], 0), limit, true)
  {
    steps := Begins(c, [5], limit, true);
    TakenIs(c);
    steps := TakesAndRenews(c, steps, World(map[0 := NewEvent(0, [5], 0)], map[], 0), 1, 1, limit);
  }

  /** The lease runs out during the first worker's send; the second delivers and saves; the first one's send ends. */
  lemma LateRun(c: Config, limit: nat) returns (steps: seq<Step>)
    requires c.leaseMs <= limit
    ensures WithinRun(c, HOME, steps, limit) && CalmRun(c, HOME, steps) && !NeverAgain(c, HOME, steps)
  {
    var at, s := c.leaseMs, World(map[0 := Taken(c, 1, 0, 1)], map[1 := Sending(c, 1, 0, 1)], 0);
    steps := FirstSends(c, limit);
    steps := Reach(c, steps, s, Tick(at), limit, true);
    steps := TakesAndRenews(c, steps, s.(clock := at), 2, 2, limit);
    steps := LateEnd(c, steps, limit);
  }

  lemma LateEnd(c: Config, before: seq<Step>, limit: nat) returns (steps: seq<Step>)
    requires c.leaseMs <= limit
    requires var at := c.leaseMs;
             Reaches(c, before, World(map[0 := Taken(c, 2, at, 2)], map[1 := Sending(c, 1, 0, 1), 2 := Sending(c, 2, at, 2)], at), limit, true)
    ensures WithinRun(c, HOME, steps, limit) && CalmRun(c, HOME, steps) && !NeverAgain(c, HOME, steps)
  {
    var at := c.leaseMs;
    var s := World(map[0 := Taken(c, 2, at, 2)], map[1 := Sending(c, 1, 0, 1), 2 := Sending(c, 2, at, 2)], at);
    DeliverAndSave(c, s, at);
    steps := Reach(c, before, s, Advancing(2, Accepted(at)), limit, true);
    s := Do(c, s, Advancing(2, Accepted(at)));
    steps := Reach(c, steps, s, Save(2), limit, true);
    s := Do(c, s, Save(2));
    assert s.workers[1] == Sending(c, 1, 0, 1);
    LastContact(c, steps, s, Advancing(1, Accepted(at)), limit, true);
    steps := steps + [Advancing(1, Accepted(at))];
  }

  // A retry of another endpoint during a send, all at one instant.

  /** An event of two endpoints, in somebody's hands or in nobody's. */
  function Two(c: Config, status: EventStatus, claims: nat, owner: Option<Worker>, deliveries: seq<Delivery>): Event {
    Event(0, [5, 6], 0, status, claims, 0, owner, if owner.Some? then Some(c.leaseMs) else None, None, deliveries)
  }

  function Gone(endpoint: Id): Delivery {
    Delivery(endpoint, GaveUp, 0, None, None)
  }

  function Again(endpoint: Id): Delivery {
    Delivery(endpoint, Retrying, 0, Some(0), None)
  }

  function Over(endpoint: Id): Delivery {
    Delivery(endpoint, Delivered, 1, None, Some(0))
  }

  /** The one event, what other workers hold, and what this one holds. */
  function At(e: Event, others: map<Worker, Work>, w: Worker, work: Work): World {
    World(map[0 := e], others[w := work], 0)
  }

  function Holding(stored: Event, deliveries: seq<Delivery>, index: nat): Work {
    Work(0, stored, 0, deliveries, index, None)
  }

  lemma TakesUp(c: Config, steps: seq<Step>, e: Event, others: map<Worker, Work>, w: Worker, stored: Event,
                deliveries: seq<Delivery>, limit: nat) returns (longer: seq<Step>)
    requires Reaches(c, steps, World(map[0 := e], others, 0), limit, false) && w !in others
    requires Claimable(e, 0) && Claimed(e, w, 0, c.leaseMs) == stored && WorkList(stored) == deliveries
    ensures Reaches(c, longer, At(stored, others, w, Holding(stored, deliveries, 0)), limit, false)
  {
    var s := World(map[0 := e], others, 0);
    longer := Reach(c, steps, s, Claim(w, 0, 0), limit, false);
    assert s.events[0 := stored] == map[0 := stored];
  }

  lemma Renews(c: Config, steps: seq<Step>, e: Event, others: map<Worker, Work>, w: Worker, work: Work, limit: nat)
    returns (longer: seq<Step>)
    requires Reaches(c, steps, At(e, others, w, work), limit, false)
    requires work.event == 0 && work.renewed == None && work.claimedAt == 0 && MustSend(work, 0)
    requires Owns(e, w) && e.lockedUntil == Some(c.leaseMs)
    ensures Reaches(c, longer, At(e, others, w, work.(renewed := Some(0))), limit, false)
  {
    RenewIs(c, e, others, w, work);
    longer := Reach(c, steps, At(e, others, w, work), Renew(w, 0), limit, false);
  }

  lemma RenewIs(c: Config, e: Event, others: map<Worker, Work>, w: Worker, work: Work)
    requires work.event == 0 && work.renewed == None && work.claimedAt == 0 && MustSend(work, 0)
    requires Owns(e, w) && e.lockedUntil == Some(c.leaseMs)
    ensures Do(c, At(e, others, w, work), Renew(w, 0)) == At(e, others, w, work.(renewed := Some(0)))
  {
    var s := At(e, others, w, work);
    assert e.(lockedUntil := Some(0 + c.leaseMs)) == e && s.events[0 := e] == s.events;
    assert s.workers[w := work.(renewed := Some(0))] == others[w := work.(renewed := Some(0))];
  }

  lemma SendsTo(c: Config, steps: seq<Step>, e: Event, others: map<Worker, Work>, w: Worker, work: Work, answer: Answer,
                deliveries: seq<Delivery>, limit: nat) returns (longer: seq<Step>)
    requires Reaches(c, steps, At(e, others, w, work), limit, false)
    requires work.event == 0 && work.renewed == None && work.claimedAt == 0 && MustSend(work, 0)
    requires Owns(e, w) && e.lockedUntil == Some(c.leaseMs)
    requires deliveries == work.deliveries[work.index := Answered(c, work.deliveries[work.index], answer)]
    ensures Reaches(c, longer, At(e, others, w, Holding(work.stored, deliveries, work.index + 1)), limit, false)
  {
    longer := Renews(c, steps, e, others, w, work, limit);
    SendIs(c, e, others, w, work, answer);
    longer := Reach(c, longer, At(e, others, w, work.(renewed := Some(0))), Advancing(w, answer), limit, false);
  }

  lemma SendIs(c: Config, e: Event, others: map<Worker, Work>, w: Worker, work: Work, answer: Answer)
    requires work.event == 0 && work.claimedAt == 0 && work.index < |work.deliveries|
    ensures var s, d := At(e, others, w, work.(renewed := Some(0))), Answered(c, work.deliveries[work.index], answer);
            && EndsWithin(c, s, Advancing(w, answer), 0)
            && Do(c, s, Advancing(w, answer)) == At(e, others, w, Holding(work.stored, work.deliveries[work.index := d], work.index + 1))
  {
    var s, d := At(e, others, w, work.(renewed := Some(0))), Answered(c, work.deliveries[work.index], answer);
    var done := Holding(work.stored, work.deliveries[work.index := d], work.index + 1);
    assert s.workers[w := done] == others[w := done];
  }

  lemma Saves(c: Config, steps: seq<Step>, e: Event, others: map<Worker, Work>, w: Worker, work: Work, saved: Event,
              limit: nat) returns (longer: seq<Step>)
    requires Reaches(c, steps, At(e, others, w, work), limit, false) && w !in others
    requires work.event == 0 && work.index == |work.deliveries| && Owns(e, w) && Saved(e, work.deliveries, 0) == saved
    ensures Reaches(c, longer, World(map[0 := saved], others, 0), limit, false)
  {
    SaveIs(c, e, others, w, work);
    longer := Reach(c, steps, At(e, others, w, work), Save(w), limit, false);
  }

  lemma SaveIs(c: Config, e: Event, others: map<Worker, Work>, w: Worker, work: Work)
    requires work.event == 0 && work.index == |work.deliveries| && Owns(e, w) && w !in others
    ensures Do(c, At(e, others, w, work), Save(w)) == World(map[0 := Saved(e, work.deliveries, 0)], others, 0)
  {
    var s, saved := At(e, others, w, work), Saved(e, work.deliveries, 0);
    assert s.events[0 := saved] == map[0 := saved] && s.workers - {w} == others;
  }

  lemma Retries(c: Config, steps: seq<Step>, e: Event, workers: map<Worker, Work>, endpoint: Id, later: Event, limit: nat)
    returns (longer: seq<Step>)
    requires Reaches(c, steps, World(map[0 := e], workers, 0), limit, false)
    requires CanRetry(e, endpoint) && RetryScheduled(e, endpoint, 0) == later
    ensures Reaches(c, longer, World(map[0 := later], workers, 0), limit, false)
  {
    RetryIs(c, e, workers, endpoint);
    longer := Reach(c, steps, World(map[0 := e], workers, 0), Retry(0, endpoint), limit, false);
  }

  lemma RetryIs(c: Config, e: Event, workers: map<Worker, Work>, endpoint: Id)
    requires CanRetry(e, endpoint)
    ensures Do(c, World(map[0 := e], workers, 0), Retry(0, endpoint)) == World(map[0 := RetryScheduled(e, endpoint, 0)], workers, 0)
  {
    var s, later := World(map[0 := e], workers, 0), RetryScheduled(e, endpoint, 0);
    assert s.events[0 := later] == map[0 := later];
  }

  lemma GoneSaved(c: Config)
    ensures Saved(Two(c, Processing, 1, Some(1), []), [Gone(5), Gone(6)], 0) == Two(c, Failed, 1, None, [Gone(5), Gone(6)])
    ensures RetryScheduled(Two(c, Failed, 1, None, [Gone(5), Gone(6)]), 5, 0) == Two(c, Pending, 1, None, [Again(5), Gone(6)])
    ensures CanRetry(Two(c, Failed, 1, None, [Gone(5), Gone(6)]), 5)
  {
    var gone := [Gone(5), Gone(6)];
    assert gone[0].status == GaveUp && GaveUpOn(gone[0], 5);
    FirstRetryIs(gone);
    assert RescheduleAll(gone, 5, 0) == [Again(5), Gone(6)];
  }

  /** Both endpoints are found gone, and the first is put back. */
  lemma BothGone(c: Config, limit: nat) returns (steps: seq<Step>)
    ensures Reaches(c, steps, World(map[0 := Two(c, Pending, 1, None, [Again(5), Gone(6)])], map[], 0), limit, false)
  {
    var unsent, list := NewEvent(0, [5, 6], 0), [NewDelivery(5, 0), NewDelivery(6, 0)];
    var taken := Two(c, Processing, 1, Some(1), []);
    steps := Begins(c, [5, 6], limit, false);
    steps := TakesUp(c, steps, unsent, map[], 1, taken, list, limit);
    steps := SendsTo(c, steps, taken, map[], 1, Holding(taken, list, 0), EndpointGone, [Gone(5), NewDelivery(6, 0)], limit);
    steps := SendsTo(c, steps, taken, map[], 1, Holding(taken, [Gone(5), NewDelivery(6, 0)], 1), EndpointGone, [Gone(5), Gone(6)], limit);
    GoneSaved(c);
    var gone := Two(c, Failed, 1, None, [Gone(5), Gone(6)]);
    steps := Saves(c, steps, taken, map[], 1, Holding(taken, [Gone(5), Gone(6)], 2), gone, limit);
    steps := Retries(c, steps, gone, map[], 5, Two(c, Pending, 1, None, [Again(5), Gone(6)]), limit);
  }

  /** A worker is sending to the first endpoint when an administrator puts the second one back too. */
  lemma PutBack(c: Config, limit: nat) returns (steps: seq<Step>)
    ensures Reaches(c, steps, World(map[0 := Two(c, Pending, 2, None, [Again(5), Again(6)])], map[1 := Midway(c)], 0), limit, false)
  {
    steps := BothGone(c, limit);
    var taken, list := Two(c, Processing, 2, Some(1), [Again(5), Gone(6)]), [Again(5), Gone(6)];
    assert WorkList(taken) == list;
    steps := TakesUp(c, steps, Two(c, Pending, 1, None, list), map[], 1, taken, list, limit);
    steps := Renews(c, steps, taken, map[], 1, Holding(taken, list, 0), limit);
    assert GaveUpOn(list[1], 6);
    assert RescheduleAll(list, 6, 0) == [Again(5), Again(6)];
    steps := Retries(c, steps, taken, map[1 := Midway(c)], 6, Two(c, Pending, 2, None, [Again(5), Again(6)]), limit);
  }

  /** The first worker, in the middle of its send. */
  function Midway(c: Config): Work {
    Holding(Two(c, Processing, 2, Some(1), [Again(5), Gone(6)]), [Again(5), Gone(6)], 0).(renewed := Some(0))
  }

  /** The second worker delivers to both and saves. */
  lemma SecondDelivers(c: Config, limit: nat) returns (steps: seq<Step>)
    ensures Reaches(c, steps, World(map[0 := Saved(Two(c, Processing, 3, Some(2), [Again(5), Again(6)]), [Over(5), Over(6)], 0)],
                                    map[1 := Midway(c)], 0), limit, false)
  {
    steps := PutBack(c, limit);
    var list, others := [Again(5), Again(6)], map[1 := Midway(c)];
    var taken := Two(c, Processing, 3, Some(2), list);
    assert WorkList(taken) == list;
    steps := TakesUp(c, steps, Two(c, Pending, 2, None, list), others, 2, taken, list, limit);
    steps := SendsTo(c, steps, taken, others, 2, Holding(taken, list, 0), Accepted(0), [Over(5), Again(6)], limit);
    steps := SendsTo(c, steps, taken, others, 2, Holding(taken, [Over(5), Again(6)], 1), Accepted(0), [Over(5), Over(6)], limit);
    steps := Saves(c, steps, taken, others, 2, Holding(taken, [Over(5), Over(6)], 2), Saved(taken, [Over(5), Over(6)], 0), limit);
  }

  lemma RetriedRun(c: Config, limit: nat) returns (steps: seq<Step>)
    ensures WithinRun(c, HOME, steps, limit) && !NeverAgain(c, HOME, steps)
  {
    steps := SecondDelivers(c, limit);
    var e := Saved(Two(c, Processing, 3, Some(2), [Again(5), Again(6)]), [Over(5), Over(6)], 0);
    assert FindDelivery([Over(5), Over(6)][..1], 5) == Some(Over(5));
    LastContact(c, steps, World(map[0 := e], map[1 := Midway(c)], 0), Advancing(1, Accepted(0)), limit, false);
    steps := steps + [Advancing(1, Accepted(0))];
  }
}
