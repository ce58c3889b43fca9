/**
 What the outbox promises over every run: no update is lost, what was delivered stays
 delivered, and between an administrator's retries every event is saved finitely often.
 */
module OutboxTheorems {
  import opened Base
  import opened Outbox
  import opened OutboxProtocol

  // ---------------------------------------------------------------------------- runs

  /** A step that cannot happen does not happen. */
  function Do(c: Config, s: World, step: Step): World {
    if Possible(c, s, step) then Next(c, s, step) else s
  }

  function Run(c: Config, s: World, steps: seq<Step>): World {
    if steps == [] then s else Do(c, Run(c, s, steps[..|steps| - 1]), steps[|steps| - 1])
  }

  lemma {:induction false} RunKeeps(c: Config, s: World, steps: seq<Step>)
    requires ConfigOk(c) && Inv(c, s)
    ensures Inv(c, Run(c, s, steps))
  {
    if steps != [] {
      var before := Run(c, s, steps[..|steps| - 1]);
      RunKeeps(c, s, steps[..|steps| - 1]);
      if Possible(c, before, steps[|steps| - 1]) {
        StepKeeps(c, before, steps[|steps| - 1]);
      }
    }
  }

  lemma StartInv(c: Config, clock: Time)
    ensures Inv(c, World(map[], map[], clock))
  {
  }

  // --------------------------------------------------------------- no lost update

  /** The worker is about to save the event `id` and still owns it. */
  predicate Saving(c: Config, s: World, step: Step, id: Id) {
    step.Save? && Possible(c, s, step) && s.workers[step.worker].event == id && id in s.events && Owns(s.events[id], step.worker)
  }

  /**
   A save that goes through finds the event exactly as it was claimed, but for the lease,
   and what it stores is what was stored, moved by this worker's own sends alone.
   */
  lemma SaveIsFenced(c: Config, s: World, w: Worker, id: Id)
    requires Inv(c, s) && Saving(c, s, Save(w), id)
    ensures var work, e := s.workers[w], s.events[id];
            && e == work.stored.(lockedUntil := e.lockedUntil)
            && Next(c, s, Save(w)).events[id] == Saved(e, work.deliveries, s.clock)
            && |work.deliveries| == |e.endpoints|
            && forall k :: 0 <= k < |e.endpoints| ==> Moved(c, WorkList(e)[k], work.deliveries[k], work.claimedAt)
  {
  }

  /** The step writes the event, and `w` is not who takes it. */
  predicate WrittenByOther(c: Config, s: World, step: Step, w: Worker, id: Id) {
    Possible(c, s, step) && id in s.events
    && match step
       case Claim(v, event, _) => v != w && event == id
       case Renew(v, _) => v != w && s.workers[v].event == id && Owns(s.events[id], v)
       case Save(v) => v != w && s.workers[v].event == id && Owns(s.events[id], v)
       case Retry(event, endpoint) => event == id && CanRetry(s.events[id], endpoint)
       case _ => false
  }

  predicate Reclaims(step: Step, w: Worker, id: Id) {
    step.Claim? && step.worker == w && step.event == id
  }

  lemma WrittenIsLost(c: Config, s: World, step: Step, w: Worker, id: Id)
    requires WrittenByOther(c, s, step, w, id)
    ensures id in Do(c, s, step).events && !Owns(Do(c, s, step).events[id], w)
  {
  }

  lemma LostStays(c: Config, s: World, step: Step, w: Worker, id: Id)
    requires id in s.events && !Owns(s.events[id], w) && !Reclaims(step, w, id)
    ensures id in Do(c, s, step).events && !Owns(Do(c, s, step).events[id], w)
  {
  }

  /**
   Once any other worker or an administrator has written the event, a worker that claimed it
   before never saves it again, whatever happens in between, unless it claims it anew.
   */
  lemma {:induction false} OverwrittenSavesNothing(c: Config, s: World, steps: seq<Step>, w: Worker, id: Id, n: nat)
    requires n < |steps| && WrittenByOther(c, Run(c, s, steps[..n]), steps[n], w, id)
    requires forall k :: n < k < |steps| ==> !Reclaims(steps[k], w, id)
    ensures var t := Run(c, s, steps);
            id in t.events && !Owns(t.events[id], w)
            && (Possible(c, t, Save(w)) && t.workers[w].event == id ==> Next(c, t, Save(w)).events == t.events)
  {
    var init := steps[..|steps| - 1];
    if n == |steps| - 1 {
      WrittenIsLost(c, Run(c, s, init), steps[n], w, id);
    } else {
      assert init[..n] == steps[..n] && init[n] == steps[n];
      OverwrittenSavesNothing(c, s, init, w, id, n);
      LostStays(c, Run(c, s, init), steps[|steps| - 1], w, id);
    }
  }

  // ------------------------------------------------------------- what never goes back

  /** A published event is final, and a delivery stored as delivered stays. */
  predicate Lasting(before: Event, after: Event) {
    && (before.status == Published ==> after == before)
    && (forall k :: 0 <= k < |before.deliveries| && before.deliveries[k].status == Delivered ==>
          k < |after.deliveries| && after.deliveries[k] == before.deliveries[k])
  }

  lemma SaveLasting(c: Config, s: World, w: Worker, id: Id)
    requires Inv(c, s) && Saving(c, s, Save(w), id)
    ensures Lasting(s.events[id], Next(c, s, Save(w)).events[id])
  {
    SaveIsFenced(c, s, w, id);
    var e := s.events[id];
    forall k | 0 <= k < |e.deliveries| && e.deliveries[k].status == Delivered
      ensures s.workers[w].deliveries[k] == e.deliveries[k]
    {
      WorkListIs(e, k);
    }
  }

  lemma OtherStepsLasting(c: Config, s: World, step: Step, id: Id)
    requires Possible(c, s, step) && id in s.events && !Saving(c, s, step, id) && EventOk(c, s.events[id], s.clock)
    ensures id in Next(c, s, step).events && Lasting(s.events[id], Next(c, s, step).events[id])
  {
  }

  lemma StepLasting(c: Config, s: World, step: Step, id: Id)
    requires Inv(c, s) && id in s.events
    ensures id in Do(c, s, step).events && Lasting(s.events[id], Do(c, s, step).events[id])
  {
    if Saving(c, s, step, id) {
      SaveLasting(c, s, step.worker, id);
    } else if Possible(c, s, step) {
      OtherStepsLasting(c, s, step, id);
    }
  }

  /** Over every run: a published event never changes again, and a stored delivery is never undone. */
  lemma {:induction false} DeliveredLasts(c: Config, s: World, steps: seq<Step>, id: Id)
    requires ConfigOk(c) && Inv(c, s) && id in s.events
    ensures id in Run(c, s, steps).events && Lasting(s.events[id], Run(c, s, steps).events[id])
  {
    if steps != [] {
      DeliveredLasts(c, s, steps[..|steps| - 1], id);
      RunKeeps(c, s, steps[..|steps| - 1]);
      StepLasting(c, Run(c, s, steps[..|steps| - 1]), steps[|steps| - 1], id);
    }
  }

  lemma StatusOfExact(c: Config, deliveries: seq<Delivery>, now: Time)
    requires AllStoredOk(c, deliveries)
    ensures StatusOf(deliveries) == Published <==> forall k :: 0 <= k < |deliveries| ==> deliveries[k].status == Delivered
    ensures StatusOf(deliveries) == Pending <==> exists k :: 0 <= k < |deliveries| && deliveries[k].status == Retrying
    ensures StatusOf(deliveries) == Pending ==> HasDue(deliveries, AvailableAt(deliveries, now))
  {
    assert forall k :: 0 <= k < |deliveries| ==> (deliveries[k].status == Retrying <==> IsRetry(deliveries[k]));
    if HasRetry(deliveries) {
      SavedDue(deliveries, now);
    }
  }

  /**
   The status a save stores is exact: PUBLISHED exactly when every endpoint's delivery is
   delivered, PENDING exactly when some delivery is to be retried.
   */
  lemma StatusExact(c: Config, s: World, w: Worker, id: Id)
    requires Inv(c, s) && Saving(c, s, Save(w), id)
    ensures var e := Next(c, s, Save(w)).events[id];
            && |e.deliveries| == |e.endpoints|
            && (e.status == Published <==> forall k :: 0 <= k < |e.endpoints| ==> e.deliveries[k].status == Delivered)
            && (e.status == Pending <==> exists k :: 0 <= k < |e.deliveries| && e.deliveries[k].status == Retrying)
            && (e.status == Pending ==> HasDue(e.deliveries, e.availableAt))
  {
    SaveIsFenced(c, s, w, id);
    WorkDone(c, s.workers[w], s.clock);
    StatusOfExact(c, s.workers[w].deliveries, s.clock);
  }

  // -------------------------------------------------------------------- coming to an end

  function Left(c: Config, d: Delivery): nat {
    if Terminal(d) || d.attempts >= c.maxAttempts then 0 else c.maxAttempts - d.attempts
  }

  /** The attempts still allowed over all deliveries that have not ended. */
  function Measure(c: Config, deliveries: seq<Delivery>): nat {
    if deliveries == [] then 0 else Measure(c, deliveries[..|deliveries| - 1]) + Left(c, deliveries[|deliveries| - 1])
  }

  predicate AllMoved(c: Config, before: seq<Delivery>, after: seq<Delivery>, since: Time) {
    |before| == |after| && forall k :: 0 <= k < |before| ==> ListedOk(c, before[k]) && Moved(c, before[k], after[k], since)
  }

  lemma LeftFalls(c: Config, before: Delivery, after: Delivery, since: Time)
    requires ConfigOk(c) && ListedOk(c, before) && Moved(c, before, after, since)
    ensures Left(c, after) <= Left(c, before)
    ensures !Terminal(before) && after != before ==> Left(c, after) < Left(c, before)
  {
  }

  lemma {:induction false} MeasureFalls(c: Config, before: seq<Delivery>, after: seq<Delivery>, since: Time)
    requires ConfigOk(c) && AllMoved(c, before, after, since)
    ensures Measure(c, after) <= Measure(c, before)
  {
    if before != [] {
      var n := |before| - 1;
      assert AllMoved(c, before[..n], after[..n], since);
      MeasureFalls(c, before[..n], after[..n], since);
      LeftFalls(c, before[n], after[n], since);
    }
  }

  lemma {:induction false} MeasureFallsAt(c: Config, before: seq<Delivery>, after: seq<Delivery>, since: Time, k: nat)
    requires ConfigOk(c) && AllMoved(c, before, after, since)
    requires k < |before| && !Terminal(before[k]) && after[k] != before[k]
    ensures Measure(c, after) < Measure(c, before)
  {
    var n := |before| - 1;
    assert AllMoved(c, before[..n], after[..n], since);
    LeftFalls(c, before[n], after[n], since);
    if k == n {
      MeasureFalls(c, before[..n], after[..n], since);
    } else {
      MeasureFallsAt(c, before[..n], after[..n], since, k);
    }
  }

  /** The delivery that was due at the claim has been tried: something moved. */
  lemma SomethingMoves(c: Config, e: Event, after: seq<Delivery>, since: Time) returns (k: nat)
    requires Distinct(e.endpoints) && Aligned(e) && AllStoredOk(c, e.deliveries) && Due(e, since) && e.endpoints != []
    requires AllMoved(c, WorkList(e), after, since)
    ensures k < |after| && !Terminal(WorkList(e)[k]) && after[k] != WorkList(e)[k]
  {
    k := 0;
    if e.deliveries != [] {
      k :| 0 <= k < |e.deliveries| && IsRetry(e.deliveries[k]) && e.deliveries[k].nextAttempt.value <= e.availableAt;
    }
    WorkListIs(e, k);
    assert Moved(c, WorkList(e)[k], after[k], since);
  }

  /** How much an event may still be saved: nothing once it is published or failed. */
  function Potential(c: Config, e: Event): nat {
    if e.status == Pending || e.status == Processing then 1 + Measure(c, WorkList(e)) else 0
  }

  lemma SavedWorkList(e: Event, deliveries: seq<Delivery>, now: Time)
    requires Distinct(e.endpoints) && |deliveries| == |e.endpoints|
    requires forall k :: 0 <= k < |deliveries| ==> deliveries[k].endpoint == e.endpoints[k]
    ensures WorkList(Saved(e, deliveries, now)) == deliveries
  {
    var saved := Saved(e, deliveries, now);
    forall k | 0 <= k < |deliveries|
      ensures WorkList(saved)[k] == deliveries[k]
    {
      WorkListIs(saved, k);
    }
  }

  lemma WorkMoved(c: Config, w: Work, now: Time)
    requires WorkOk(c, w, now) && w.index == |w.deliveries|
    ensures AllMoved(c, WorkList(w.stored), w.deliveries, w.claimedAt)
  {
    forall k | 0 <= k < |w.deliveries|
      ensures ListedOk(c, WorkList(w.stored)[k])
    {
      ListIsOk(c, w.stored, k);
    }
  }

  lemma WorkShrinks(c: Config, w: Work, now: Time)
    requires ConfigOk(c) && WorkOk(c, w, now) && w.index == |w.deliveries| && w.stored.endpoints != []
    ensures Measure(c, w.deliveries) < Measure(c, WorkList(w.stored))
  {
    WorkMoved(c, w, now);
    var k := SomethingMoves(c, w.stored, w.deliveries, w.claimedAt);
    MeasureFallsAt(c, WorkList(w.stored), w.deliveries, w.claimedAt, k);
  }

  /** Every save either ends the event or leaves it strictly fewer attempts. */
  lemma SaveDrops(c: Config, s: World, w: Worker, id: Id)
    requires ConfigOk(c) && Inv(c, s) && Saving(c, s, Save(w), id)
    ensures Potential(c, Next(c, s, Save(w)).events[id]) < Potential(c, s.events[id])
  {
    var work, e := s.workers[w], s.events[id];
    SaveIsFenced(c, s, w, id);
    WorkDone(c, work, s.clock);
    SavedWorkList(e, work.deliveries, s.clock);
    assert WorkList(e) == WorkList(work.stored);
    if e.endpoints != [] {
      WorkShrinks(c, work, s.clock);
    }
  }

  lemma OtherStepsKeepPotential(c: Config, s: World, step: Step, id: Id)
    requires Possible(c, s, step) && id in s.events
    requires !Saving(c, s, step, id) && !(step.Retry? && step.event == id)
    ensures id in Next(c, s, step).events && Potential(c, Next(c, s, step).events[id]) == Potential(c, s.events[id])
  {
    var e, after := s.events[id], Next(c, s, step).events[id];
    assert WorkList(after) == WorkList(e);
  }

  function SaveCount(c: Config, s: World, steps: seq<Step>, id: Id): nat {
    if steps == [] then 0
    else
      var init := steps[..|steps| - 1];
      SaveCount(c, s, init, id) + if Saving(c, Run(c, s, init), steps[|steps| - 1], id) then 1 else 0
  }

  predicate NoRetries(steps: seq<Step>, id: Id) {
    forall k :: 0 <= k < |steps| ==> !(steps[k].Retry? && steps[k].event == id)
  }

  lemma StepPotential(c: Config, s: World, step: Step, id: Id)
    requires ConfigOk(c) && Inv(c, s) && id in s.events && !(step.Retry? && step.event == id)
    ensures id in Do(c, s, step).events
    ensures Potential(c, Do(c, s, step).events[id]) + (if Saving(c, s, step, id) then 1 else 0) <= Potential(c, s.events[id])
  {
    if Saving(c, s, step, id) {
      SaveDrops(c, s, step.worker, id);
    } else if Possible(c, s, step) {
      OtherStepsKeepPotential(c, s, step, id);
    }
  }

  /**
   Between an administrator's retries, whatever the workers do, the number of times an event
   is saved is bounded by the attempts its deliveries had left.
   */
  lemma {:induction false} SavesBounded(c: Config, s: World, steps: seq<Step>, id: Id)
    requires ConfigOk(c) && Inv(c, s) && id in s.events && NoRetries(steps, id)
    ensures id in Run(c, s, steps).events
    ensures SaveCount(c, s, steps, id) + Potential(c, Run(c, s, steps).events[id]) <= Potential(c, s.events[id])
  {
    if steps != [] {
      var init := steps[..|steps| - 1];
      SavesBounded(c, s, init, id);
      RunKeeps(c, s, init);
      StepPotential(c, Run(c, s, init), steps[|steps| - 1], id);
    }
  }

  // ------------------------------------------------------------------- counting sends

  /** The attempts a pass has added so far. */
  function Sends(before: seq<Delivery>, after: seq<Delivery>): int
    requires |before| == |after|
  {
    if before == [] then 0
    else
      var n := |before| - 1;
      Sends(before[..n], after[..n]) + after[n].attempts - before[n].attempts
  }

  lemma {:induction false} SendsPaid(c: Config, before: seq<Delivery>, after: seq<Delivery>, since: Time)
    requires ConfigOk(c) && AllMoved(c, before, after, since)
    ensures 0 <= Sends(before, after) <= Measure(c, before) - Measure(c, after)
    ensures Sends(before, after) <= |before|
  {
    if before != [] {
      var n := |before| - 1;
      assert AllMoved(c, before[..n], after[..n], since);
      SendsPaid(c, before[..n], after[..n], since);
      assert ListedOk(c, before[n]) && Moved(c, before[n], after[n], since);
    }
  }

  /** The answered sends of all passes over the event that were saved. */
  function SavedSends(c: Config, s: World, steps: seq<Step>, id: Id): int
    requires ConfigOk(c) && Inv(c, s)
  {
    if steps == [] then 0
    else
      var init := steps[..|steps| - 1];
      RunKeeps(c, s, init);
      SavedSends(c, s, init, id) + StepSends(c, Run(c, s, init), steps[|steps| - 1], id)
  }

  function StepSends(c: Config, s: World, step: Step, id: Id): int
    requires Inv(c, s)
  {
    if Saving(c, s, step, id) then Sends(WorkList(s.workers[step.worker].stored), s.workers[step.worker].deliveries) else 0
  }

  lemma SavedSendsPaid(c: Config, s: World, step: Step, id: Id)
    requires ConfigOk(c) && Inv(c, s) && id in s.events && !(step.Retry? && step.event == id)
    ensures id in Do(c, s, step).events
    ensures StepSends(c, s, step, id) + Measure(c, WorkList(Do(c, s, step).events[id])) <= Measure(c, WorkList(s.events[id]))
  {
    if Saving(c, s, step, id) {
      var w := step.worker;
      var work, e := s.workers[w], s.events[id];
      SaveIsFenced(c, s, w, id);
      WorkDone(c, work, s.clock);
      SavedWorkList(e, work.deliveries, s.clock);
      assert WorkList(e) == WorkList(work.stored);
      WorkMoved(c, work, s.clock);
      SendsPaid(c, WorkList(work.stored), work.deliveries, work.claimedAt);
    } else if Possible(c, s, step) {
      SameList(c, s, step, id);
    }
  }

  lemma SameList(c: Config, s: World, step: Step, id: Id)
    requires Possible(c, s, step) && id in s.events
    requires !Saving(c, s, step, id) && !(step.Retry? && step.event == id)
    ensures id in Next(c, s, step).events && WorkList(Next(c, s, step).events[id]) == WorkList(s.events[id])
  {
  }

  /** Between an administrator's retries, the sends of all saved passes never exceed the attempts the deliveries had left. */
  lemma {:induction false} SavedSendsBounded(c: Config, s: World, steps: seq<Step>, id: Id)
    requires ConfigOk(c) && Inv(c, s) && id in s.events && NoRetries(steps, id)
    ensures id in Run(c, s, steps).events
    ensures SavedSends(c, s, steps, id) + Measure(c, WorkList(Run(c, s, steps).events[id])) <= Measure(c, WorkList(s.events[id]))
  {
    if steps != [] {
      var init := steps[..|steps| - 1];
      SavedSendsBounded(c, s, init, id);
      RunKeeps(c, s, init);
      SavedSendsPaid(c, Run(c, s, init), steps[|steps| - 1], id);
    }
  }

  /** The worker hears from an endpoint it has sent the event to. */
  predicate SendsFor(c: Config, s: World, step: Step, w: Worker, id: Id) {
    step.Advancing? && step.worker == w && Possible(c, s, step) && s.workers[w].event == id && step.answer != EndpointGone
  }

  function SendCount(c: Config, s: World, steps: seq<Step>, w: Worker, id: Id): nat {
    if steps == [] then 0
    else
      var init := steps[..|steps| - 1];
      SendCount(c, s, init, w, id) + if SendsFor(c, Run(c, s, init), steps[|steps| - 1], w, id) then 1 else 0
  }

  function ClaimCount(c: Config, s: World, steps: seq<Step>, w: Worker, id: Id): nat {
    if steps == [] then 0
    else
      var init, last := steps[..|steps| - 1], steps[|steps| - 1];
      ClaimCount(c, s, init, w, id) + if Possible(c, Run(c, s, init), last) && Reclaims(last, w, id) then 1 else 0
  }

  /** The deliveries the worker has still to come to in its pass over the event. */
  function Ahead(s: World, w: Worker, id: Id): nat {
    if w in s.workers && s.workers[w].event == id && s.workers[w].index <= |s.workers[w].deliveries|
    then |s.workers[w].deliveries| - s.workers[w].index else 0
  }

  lemma EndpointsStay(c: Config, s: World, step: Step, id: Id)
    requires id in s.events
    ensures id in Do(c, s, step).events && Do(c, s, step).events[id].endpoints == s.events[id].endpoints
  {
  }

  /** Steps of others leave a worker's place in its pass as it is. */
  lemma OthersAhead(c: Config, s: World, step: Step, w: Worker, id: Id)
    requires !(step.Claim? || step.Renew? || step.Skip? || step.Advancing? || step.Save? || step.Crash?) || step.worker != w
    ensures Ahead(Do(c, s, step), w, id) == Ahead(s, w, id)
  {
  }

  lemma ClaimAhead(c: Config, s: World, w: Worker, event: Id, at: Time, id: Id)
    requires Inv(c, s) && Possible(c, s, Claim(w, event, at)) && id in s.events
    ensures Ahead(Next(c, s, Claim(w, event, at)), w, id) == if event == id then |s.events[id].endpoints| else 0
  {
  }

  lemma OwnAhead(c: Config, s: World, step: Step, w: Worker, id: Id)
    requires step.Renew? || step.Skip? || step.Advancing? || step.Save? || step.Crash?
    requires step.worker == w
    ensures Ahead(Do(c, s, step), w, id) + (if SendsFor(c, s, step, w, id) then 1 else 0) <= Ahead(s, w, id)
  {
  }

  lemma StepAhead(c: Config, s: World, step: Step, w: Worker, id: Id)
    requires Inv(c, s) && id in s.events
    ensures Ahead(Do(c, s, step), w, id) + (if SendsFor(c, s, step, w, id) then 1 else 0)
         <= Ahead(s, w, id) + if Possible(c, s, step) && Reclaims(step, w, id) then |s.events[id].endpoints| else 0
  {
    if step.Claim? && step.worker == w {
      if Possible(c, s, step) { ClaimAhead(c, s, w, step.event, step.at, id); }
    } else if (step.Renew? || step.Skip? || step.Advancing? || step.Save? || step.Crash?) && step.worker == w {
      OwnAhead(c, s, step, w, id);
    } else {
      OthersAhead(c, s, step, w, id);
    }
  }

  lemma Multiplied(claims: nat, n: nat)
    ensures (claims + 1) * n == claims * n + n
  {
  }

  /**
   Saved or not, a worker that is idle at first sends at most once per endpoint of the event
   for every time it claims it: a pass that is lost costs no more than that.
   */
  lemma {:induction false} SendsPerClaim(c: Config, s: World, steps: seq<Step>, w: Worker, id: Id)
    requires ConfigOk(c) && Inv(c, s) && id in s.events && w !in s.workers
    ensures var t := Run(c, s, steps);
            id in t.events && t.events[id].endpoints == s.events[id].endpoints
            && SendCount(c, s, steps, w, id) + Ahead(t, w, id) <= ClaimCount(c, s, steps, w, id) * |s.events[id].endpoints|
  {
    if steps != [] {
      var init := steps[..|steps| - 1];
      SendsPerClaim(c, s, init, w, id);
      RunKeeps(c, s, init);
      StepAhead(c, Run(c, s, init), steps[|steps| - 1], w, id);
      EndpointsStay(c, Run(c, s, init), steps[|steps| - 1], id);
      Multiplied(ClaimCount(c, s, init, w, id), |s.events[id].endpoints|);
    }
  }

  lemma {:induction false} MeasureBound(c: Config, deliveries: seq<Delivery>)
    ensures Measure(c, deliveries) <= |deliveries| * c.maxAttempts
  {
    if deliveries != [] {
      MeasureBound(c, deliveries[..|deliveries| - 1]);
      assert |deliveries| * c.maxAttempts == (|deliveries| - 1) * c.maxAttempts + c.maxAttempts;
    }
  }

  /**
   After it was enqueued or last retried, an event of `n` endpoints is saved at most
   `8 * n + 1` times, and all its saved passes together send at most `8 * n` times.
   */
  lemma EventEnds(c: Config, s: World, steps: seq<Step>, id: Id)
    requires ConfigOk(c) && Inv(c, s) && id in s.events && NoRetries(steps, id)
    ensures SaveCount(c, s, steps, id) <= 1 + |s.events[id].endpoints| * 8
    ensures SavedSends(c, s, steps, id) <= |s.events[id].endpoints| * 8
  {
    SavedSendsBounded(c, s, steps, id);
    SavesBounded(c, s, steps, id);
    MeasureBound(c, WorkList(s.events[id]));
    FewerAttempts(|s.events[id].endpoints|, c.maxAttempts);
  }

  lemma FewerAttempts(n: nat, attempts: nat)
    requires attempts <= 8
    ensures n * attempts <= n * 8
  {
  }
}
