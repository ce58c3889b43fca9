/**
 What an answer makes of a delivery and what the store's updates make of an event, said of
 their own fields; and that an event fails only where an endpoint did.
 */
module DeliveryEffects {
  import opened Base
  import opened Outbox
  import opened OutboxProtocol
  import opened OutboxTheorems

  // ----------------------------------------------------------------------- one answer

  /** The base, doubled for every attempt after the first. */
  function Doubled(base: nat, attempts: nat): nat {
    if attempts <= 1 then base else 2 * Doubled(base, attempts - 1)
  }

  lemma {:induction false} PowerDoubles(base: nat, n: nat)
    ensures base * Power2(n) == Doubled(base, n + 1)
  {
    if n > 0 {
      PowerDoubles(base, n - 1);
      assert base * (2 * Power2(n - 1)) == 2 * (base * Power2(n - 1));
    }
  }

  /** The wait before the next attempt doubles with every attempt until it reaches the maximum. */
  lemma DelayDoubles(c: Config, attempts: nat)
    ensures Delay(c, attempts) == WaitAfter(c, attempts)
  {
    PowerDoubles(c.retryBase, if attempts == 0 then 0 else attempts - 1);
  }

  /** The seconds waited after `attempts` attempts, without the jitter. */
  function WaitAfter(c: Config, attempts: nat): nat {
    if Doubled(c.retryBase, attempts) > c.retryMax then c.retryMax else Doubled(c.retryBase, attempts)
  }

  /** What an answer makes of a delivery. */
  predicate LeftBy(c: Config, d: Delivery, answer: Answer, e: Delivery) {
    && e.endpoint == d.endpoint
    && (e.status == Delivered <==> answer.Accepted?)
    && (e.status == Retrying <==> answer.Refused? && answer.retryable && d.attempts + 1 < c.maxAttempts)
    && (e.status == GaveUp <==> answer == EndpointGone || (answer.Refused? && !(answer.retryable && d.attempts + 1 < c.maxAttempts)))
    && e.attempts == (if answer == EndpointGone then d.attempts else d.attempts + 1)
    && e.deliveredAt == (if answer.Accepted? then Some(answer.completedAt) else d.deliveredAt)
    && (e.status != Retrying ==> e.nextAttempt == None)
    && (e.status == Retrying ==> e.nextAttempt == Some(answer.completedAt + 1_000 * (WaitAfter(c, d.attempts + 1) + answer.jitter)))
  }

  /**
   What an answer leaves of a delivery: delivered exactly when it was accepted; after a
   refusal to be retried exactly when the refusal allows it and attempts are left, no
   sooner than the wait after it; given up otherwise.
   */
  lemma AnswerLeaves(c: Config, d: Delivery, answer: Answer)
    ensures LeftBy(c, d, answer, Answered(c, d, answer))
  {
    DelayDoubles(c, d.attempts + 1);
  }

  /** A pass leaves what is over or not due as it was, and of every other delivery what its answer makes of it. */
  lemma PassLeaves(c: Config, deliveries: seq<Delivery>, times: seq<Time>, answers: seq<Answer>, k: nat)
    requires |times| == |answers| == |deliveries| && k < |deliveries|
    ensures var d, e := deliveries[k], AdvanceAll(c, deliveries, times, answers)[k];
            if d.status == Delivered || d.status == GaveUp || (d.nextAttempt.Some? && times[k] < d.nextAttempt.value) then e == d
            else LeftBy(c, d, answers[k], e)
  {
    AnswerLeaves(c, deliveries[k], answers[k]);
  }

  // ------------------------------------------------------------ the store's updates

  /** An event that may be claimed: due, or left behind by a lease that has run out. */
  predicate Free(e: Event, at: Time) {
    (e.status == Pending && e.availableAt <= at) || (e.status == Processing && e.lockedUntil.Some? && e.lockedUntil.value <= at)
  }

  /**
   An idle worker claims exactly a free event of the earliest date, the smaller identifier
   first; the event is then locked to it for the length of the lease and counts one claim
   more, and the worker starts on its deliveries from the first.
   */
  lemma ClaimLeaves(c: Config, s: World, w: Worker, id: Id, at: Time)
    requires forall k :: k in s.events ==> s.events[k].id == k
    ensures Possible(c, s, Claim(w, id, at))
       <==> w !in s.workers && at <= s.clock && id in s.events && Free(s.events[id], at)
            && forall k :: k in s.events && Free(s.events[k], at) ==>
                 s.events[id].availableAt < s.events[k].availableAt || (s.events[id].availableAt == s.events[k].availableAt && id <= k)
    ensures Possible(c, s, Claim(w, id, at)) ==>
              var t := Next(c, s, Claim(w, id, at));
              && id in t.events && t == s.(events := s.events[id := t.events[id]], workers := t.workers) && t.workers.Keys == s.workers.Keys + {w}
              && var e, f, work := s.events[id], t.events[id], t.workers[w];
                 && f.status == Processing && f.lockedBy == Some(w) && f.lockedUntil == Some(at + c.leaseMs) && f.claims == e.claims + 1
                 && f.availableAt == e.availableAt && f.deliveries == e.deliveries && f.endpoints == e.endpoints && f.id == id
                 && work.event == id && work.claimedAt == at && work.index == 0 && work.stored == f && |work.deliveries| == |e.endpoints|
  {
    forall k | k in s.events
      ensures Free(s.events[k], at) <==> Claimable(s.events[k], at)
    {
    }
  }

  /** A new event waits from its creation on, for every endpoint. */
  lemma EnqueueLeaves(id: Id, endpoints: seq<Id>, now: Time)
    ensures var e := NewEvent(id, endpoints, now);
            && e.id == id && e.endpoints == endpoints && e.createdAt == now && e.availableAt == now && e.status == Pending
            && e.deliveries == [] && e.claims == 0 && e.lockedBy == None && e.lockedUntil == None && e.publishedAt == None
            && |WorkList(e)| == |endpoints|
            && forall k :: 0 <= k < |endpoints| ==>
                 WorkList(e)[k].endpoint == endpoints[k] && WorkList(e)[k].status == NotTried && WorkList(e)[k].attempts == 0
                 && WorkList(e)[k].nextAttempt == Some(now) && WorkList(e)[k].deliveredAt == None
  {
  }

  /** What a save leaves: the deliveries as they are, a status and a date to match, and no lock. */
  lemma SaveLeaves(e: Event, deliveries: seq<Delivery>, now: Time)
    ensures var f := Saved(e, deliveries, now);
            && f == e.(status := f.status, deliveries := deliveries, availableAt := f.availableAt, publishedAt := f.publishedAt,
                       lockedBy := None, lockedUntil := None)
            && (f.status == Pending <==> exists k :: 0 <= k < |deliveries| && deliveries[k].status == Retrying && deliveries[k].nextAttempt.Some?)
            && (f.status == Failed <==> f.status != Pending && exists k :: 0 <= k < |deliveries| && deliveries[k].status == GaveUp)
            && (f.status == Published <==> f.status != Pending && f.status != Failed)
            && f.publishedAt == (if f.status == Published then Some(now) else None)
            && (f.status != Pending ==> f.availableAt == now)
            && (f.status == Pending ==>
                  && (exists k :: 0 <= k < |deliveries| && deliveries[k].status == Retrying && deliveries[k].nextAttempt == Some(f.availableAt))
                  && forall k :: 0 <= k < |deliveries| && deliveries[k].status == Retrying && deliveries[k].nextAttempt.Some? ==>
                       f.availableAt <= deliveries[k].nextAttempt.value)
  {
    FirstRetryIs(deliveries);
    assert HasRetry(deliveries) <==> exists k :: 0 <= k < |deliveries| && deliveries[k].status == Retrying && deliveries[k].nextAttempt.Some?;
    assert HasGivenUp(deliveries) <==> exists k :: 0 <= k < |deliveries| && deliveries[k].status == GaveUp;
    if HasRetry(deliveries) {
      var k :| 0 <= k < |deliveries| && IsRetry(deliveries[k]) && deliveries[k].nextAttempt == FirstRetry(deliveries);
    }
  }

  /** An administrator's retry puts back exactly the given-up deliveries of the endpoint, from scratch and at once. */
  lemma RetryLeaves(e: Event, endpoint: Id, now: Time)
    ensures CanRetry(e, endpoint) <==> exists k :: 0 <= k < |e.deliveries| && e.deliveries[k].endpoint == endpoint && e.deliveries[k].status == GaveUp
    ensures var f := RetryScheduled(e, endpoint, now);
            && f == e.(status := Pending, availableAt := now, lockedBy := None, lockedUntil := None, publishedAt := None, deliveries := f.deliveries)
            && |f.deliveries| == |e.deliveries|
            && forall k :: 0 <= k < |e.deliveries| ==>
                 f.deliveries[k] == if e.deliveries[k].endpoint == endpoint && e.deliveries[k].status == GaveUp
                                    then e.deliveries[k].(status := Retrying, attempts := 0, nextAttempt := Some(now)) else e.deliveries[k]
  {
    assert CanRetry(e, endpoint) <==> exists k :: 0 <= k < |e.deliveries| && GaveUpOn(e.deliveries[k], endpoint);
    if exists k :: 0 <= k < |e.deliveries| && e.deliveries[k].endpoint == endpoint && e.deliveries[k].status == GaveUp {
      var k :| 0 <= k < |e.deliveries| && e.deliveries[k].endpoint == endpoint && e.deliveries[k].status == GaveUp;
      assert GaveUpOn(e.deliveries[k], endpoint);
    }
  }

  // ------------------------------------------------------------- why an event fails

  /** The endpoint may not be sent to any more, refused for good, or refused the last attempt. */
  predicate Fatal(c: Config, d: Delivery, answer: Answer) {
    answer == EndpointGone || (answer.Refused? && (!answer.retryable || d.attempts + 1 >= c.maxAttempts))
  }

  /** The step is such an answer from an endpoint of the event. */
  predicate GivesUp(c: Config, s: World, step: Step, id: Id, endpoint: Id) {
    step.Advancing? && Possible(c, s, step)
    && var w := s.workers[step.worker];
       w.event == id && w.deliveries[w.index].endpoint == endpoint && Fatal(c, w.deliveries[w.index], step.answer)
  }

  predicate Gone(deliveries: seq<Delivery>, endpoint: Id) {
    exists k :: 0 <= k < |deliveries| && deliveries[k].endpoint == endpoint && deliveries[k].status == GaveUp
  }

  /** The endpoint is given up in the store or in some worker's list. */
  predicate GoneSomewhere(s: World, id: Id, endpoint: Id) {
    (id in s.events && Gone(s.events[id].deliveries, endpoint))
    || exists w :: w in s.workers && s.workers[w].event == id && Gone(s.workers[w].deliveries, endpoint)
  }

  lemma {:induction false} FoundIn(deliveries: seq<Delivery>, endpoint: Id)
    ensures var d := FindDelivery(deliveries, endpoint); d.Some? ==> d.value in deliveries && d.value.endpoint == endpoint
  {
    if deliveries != [] && deliveries[|deliveries| - 1].endpoint != endpoint {
      FoundIn(deliveries[..|deliveries| - 1], endpoint);
    }
  }

  lemma ListedGone(e: Event, endpoint: Id)
    requires Gone(WorkList(e), endpoint)
    ensures Gone(e.deliveries, endpoint)
  {
    var k :| 0 <= k < |WorkList(e)| && WorkList(e)[k].endpoint == endpoint && WorkList(e)[k].status == GaveUp;
    FoundIn(e.deliveries, e.endpoints[k]);
    var d := FindDelivery(e.deliveries, e.endpoints[k]);
    var m :| 0 <= m < |e.deliveries| && e.deliveries[m] == d.value;
  }

  lemma AdvancedGone(w: Work, d: Delivery, endpoint: Id)
    requires w.index < |w.deliveries| && Gone(Advanced(w, d).deliveries, endpoint)
    ensures Gone(w.deliveries, endpoint) || (d.endpoint == endpoint && d.status == GaveUp)
  {
    var after := Advanced(w, d).deliveries;
    var k :| 0 <= k < |after| && after[k].endpoint == endpoint && after[k].status == GaveUp;
    if k != w.index {
      assert w.deliveries[k] == after[k];
    }
  }

  lemma RetriedGone(e: Event, retried: Id, now: Time, endpoint: Id)
    requires Gone(RetryScheduled(e, retried, now).deliveries, endpoint)
    ensures Gone(e.deliveries, endpoint)
  {
    var after := RetryScheduled(e, retried, now).deliveries;
    var k :| 0 <= k < |after| && after[k].endpoint == endpoint && after[k].status == GaveUp;
    assert e.deliveries[k] == after[k];
  }

  /** Nothing is given up but by such an answer. */
  lemma StepGivesUp(c: Config, s: World, step: Step, id: Id, endpoint: Id)
    requires GoneSomewhere(Do(c, s, step), id, endpoint)
    ensures GoneSomewhere(s, id, endpoint) || GivesUp(c, s, step, id, endpoint)
  {
    var t := Do(c, s, step);
    if Possible(c, s, step) {
      if id in t.events && Gone(t.events[id].deliveries, endpoint) {
        if step.Retry? && step.event == id && id in s.events && CanRetry(s.events[id], step.endpoint) {
          RetriedGone(s.events[id], step.endpoint, s.clock, endpoint);
        }
      } else {
        var w :| w in t.workers && t.workers[w].event == id && Gone(t.workers[w].deliveries, endpoint);
        WorkerGone(c, s, step, w, id, endpoint);
      }
    }
  }

  lemma WorkerGone(c: Config, s: World, step: Step, w: Worker, id: Id, endpoint: Id)
    requires Possible(c, s, step) && w in Next(c, s, step).workers && Next(c, s, step).workers[w].event == id
    requires Gone(Next(c, s, step).workers[w].deliveries, endpoint)
    ensures GoneSomewhere(s, id, endpoint) || GivesUp(c, s, step, id, endpoint)
  {
    if step.Claim? && step.worker == w {
      ListedGone(Claimed(s.events[id], w, step.at, c.leaseMs), endpoint);
    } else if step.Skip? && step.worker == w {
      AdvancedGone(s.workers[w], s.workers[w].deliveries[s.workers[w].index], endpoint);
      assert s.workers[w].deliveries[s.workers[w].index] in s.workers[w].deliveries;
    } else if step.Advancing? && step.worker == w {
      var d := s.workers[w].deliveries[s.workers[w].index];
      AdvancedGone(s.workers[w], Answered(c, d, step.answer), endpoint);
      AnswerLeaves(c, d, step.answer);
    } else {
      assert w in s.workers && s.workers[w].event == id && s.workers[w].deliveries == Next(c, s, step).workers[w].deliveries;
    }
  }

  /** In some step of the run the endpoint of the event answered so. */
  predicate Caused(c: Config, s: World, steps: seq<Step>, id: Id, endpoint: Id) {
    exists n :: 0 <= n < |steps| && GivesUp(c, Run(c, s, steps[..n]), steps[n], id, endpoint)
  }

  lemma {:induction false} GivenUpHasCause(c: Config, clock: Time, steps: seq<Step>, id: Id, endpoint: Id)
    requires GoneSomewhere(Run(c, World(map[], map[], clock), steps), id, endpoint)
    ensures Caused(c, World(map[], map[], clock), steps, id, endpoint)
  {
    var start := World(map[], map[], clock);
    if steps != [] {
      var init, last := steps[..|steps| - 1], steps[|steps| - 1];
      StepGivesUp(c, Run(c, start, init), last, id, endpoint);
      if GoneSomewhere(Run(c, start, init), id, endpoint) {
        GivenUpHasCause(c, clock, init, id, endpoint);
        var n :| 0 <= n < |init| && GivesUp(c, Run(c, start, init[..n]), init[n], id, endpoint);
        assert init[..n] == steps[..n] && init[n] == steps[n];
      }
    }
  }

  /** Over every run: an event is stored as failed only if one of its endpoints was gone, refused for good or used up its attempts. */
  lemma FailedHasCause(c: Config, clock: Time, steps: seq<Step>, id: Id) returns (k: nat)
    requires ConfigOk(c)
    requires var t := Run(c, World(map[], map[], clock), steps); id in t.events && t.events[id].status == Failed
    ensures var e := Run(c, World(map[], map[], clock), steps).events[id];
            k < |e.deliveries| && e.deliveries[k].status == GaveUp
            && Caused(c, World(map[], map[], clock), steps, id, e.deliveries[k].endpoint)
  {
    StartInv(c, clock);
    RunKeeps(c, World(map[], map[], clock), steps);
    var e := Run(c, World(map[], map[], clock), steps).events[id];
    k :| 0 <= k < |e.deliveries| && e.deliveries[k].status == GaveUp;
    GivenUpHasCause(c, clock, steps, id, e.deliveries[k].endpoint);
  }
}
