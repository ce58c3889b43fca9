/**
 What holds of the inventory after any run of steps, and what an expired hold costs.
 */
module InventoryTheorems {
  import opened Base
  import opened Slots
  import opened Inventory
  import opened InventoryInvariant
  import opened InventorySound

  // ---------------------------------------------------------------------------- runs

  function Run(s: State, steps: seq<Step>): State {
    if steps == [] then s else After(Run(s, steps[..|steps| - 1]), steps[|steps| - 1])
  }

  /** Every step could happen where it happens. */
  predicate PossibleRun(s: State, steps: seq<Step>) {
    forall n :: 0 <= n < |steps| ==> Possible(Run(s, steps[..n]), steps[n])
  }

  predicate UncrowdedRun(steps: seq<Step>) {
    forall n :: 0 <= n < |steps| ==> Uncrowded(steps[n])
  }

  /** Courts and a clock, and no slots yet. */
  function Start(courts: map<Id, nat>, clock: Time): State {
    State(map[], courts, 0, clock, {}, {})
  }

  /** No confirmation of the run commits after its hold has ended. */
  predicate TimelyRun(s: State, steps: seq<Step>) {
    forall n :: 0 <= n < |steps| ==> Timely(Run(s, steps[..n]), steps[n])
  }

  lemma {:induction false} RunKeeps(s: State, steps: seq<Step>)
    requires Inv(s) && PossibleRun(s, steps) && UncrowdedRun(steps) && TimelyRun(s, steps)
    ensures Inv(Run(s, steps))
  {
    if steps != [] {
      var init := steps[..|steps| - 1];
      assert forall n :: 0 <= n < |init| ==> init[..n] == steps[..n] && init[n] == steps[n];
      RunKeeps(s, init);
      StepKeeps(Run(s, init), steps[|steps| - 1]);
    }
  }

  predicate Sold(s: Slot, now: Time) {
    s.status == Booked || LiveHold(s, now)
  }

  /**
   Through holds, confirmations, cancellations, owner bookings, blocks, reaping and time:
   no two overlapping slots of a court, one of them open-time, are both sold, as long as no
   placement's scan was cut short and no confirmation commits after its hold has ended.
   What each condition is worth is exact (`ExactSafety.SafetyIsExact`).
   */
  lemma SoldOnce(courts: map<Id, nat>, clock: Time, steps: seq<Step>, i: Id, j: Id)
    requires PossibleRun(Start(courts, clock), steps) && UncrowdedRun(steps) && TimelyRun(Start(courts, clock), steps)
    ensures var s := Run(Start(courts, clock), steps);
            i in s.slots && j in s.slots && i != j && Collide(s.slots[i], s.slots[j]) ==>
              !(Sold(s.slots[i], s.clock) && Sold(s.slots[j], s.clock))
  {
    RunKeeps(Start(courts, clock), steps);
  }

  lemma {:induction false} RunKeepsSound(s: State, steps: seq<Step>)
    requires Sound(s) && PossibleRun(s, steps)
    ensures Sound(Run(s, steps))
  {
    if steps != [] {
      var init := steps[..|steps| - 1];
      assert forall n :: 0 <= n < |init| ==> init[..n] == steps[..n] && init[n] == steps[n];
      RunKeepsSound(s, init);
      StepKeepsSound(Run(s, init), steps[|steps| - 1]);
    }
  }

  /**
   Over every possible run, late confirmations and cut scans included: a consumed slot is
   unavailable, and its consumer exists, is open-time and overlaps it.
   */
  lemma ConsumersStay(courts: map<Id, nat>, clock: Time, steps: seq<Step>, id: Id)
    requires PossibleRun(Start(courts, clock), steps)
    ensures var s := Run(Start(courts, clock), steps);
            id in s.slots && s.slots[id].consumedBy.Some? ==>
              var consumer := s.slots[id].consumedBy.value;
              s.slots[id].status == Unavailable && consumer in s.slots && s.slots[consumer].slotType == OpenTime
              && Overlaps(s.slots[consumer], Interval(s.slots[id].court, s.slots[id].environment, s.slots[id].startsAt, s.slots[id].endsAt))
  {
    RunKeepsSound(Start(courts, clock), steps);
    var s := Run(Start(courts, clock), steps);
    assert id in s.slots ==> Linked(s.slots, s.slots[id]);
  }

  // -------------------------------------------------------- what the reaper may touch

  lemma ReleaseSpares(slots: Table, c: Slot, now: Time, next: Id, id: Id)
    requires TableOk(slots, next) && CandidateRead(c, slots, now, next)
    requires id in slots && Sold(slots[id], now)
    ensures id in ReleaseExpired(slots, c) && ReleaseExpired(slots, c)[id] == slots[id]
  {
  }

  lemma {:induction false} ReapSparesFirst(s: State, r: Reading, n: nat, id: Id)
    requires Sound(s) && r in s.readings && n <= |r.candidates| && id in s.slots && Sold(s.slots[id], s.clock)
    ensures var after := ReleaseAll(s.slots, r.candidates[..n]); id in after && after[id] == s.slots[id]
  {
    if n > 0 {
      ReapSparesFirst(s, r, n - 1, id);
      ReapKeepsSound(s, r, n - 1);
      assert r.candidates[..n][..n - 1] == r.candidates[..n - 1];
      var before := ReleaseAll(s.slots, r.candidates[..n - 1]);
      assert ReadingSound(r, before, s.clock, s.nextId);
      ReleaseSpares(before, r.candidates[n - 1], s.clock, s.nextId, id);
    }
  }

  /** Whatever has happened since the reaper read its batch, it leaves every live hold and every booked slot as it is. */
  lemma ReapSpares(s: State, r: Reading, id: Id)
    requires Sound(s) && r in s.readings && id in s.slots && Sold(s.slots[id], s.clock)
    ensures var after := After(s, SReap(r)); id in after.slots && after.slots[id] == s.slots[id]
  {
    ReapSparesFirst(s, r, |r.candidates|, id);
    assert r.candidates[..|r.candidates|] == r.candidates;
  }

  /** A candidate is released exactly when its row is still the very one read, whose hold is still expired. */
  lemma ReaperIsExact(s: State, r: Reading, k: nat)
    requires Sound(s) && r in s.readings && k < |r.candidates|
    ensures var c := r.candidates[k];
            && (OutcomeOf(s.slots, c) != Skipped <==> c.id in s.slots && s.slots[c.id] == c)
            && (OutcomeOf(s.slots, c) != Skipped ==> ExpiredHold(s.slots[c.id], s.clock))
  {
  }

  /**
   The reaper restores before its compare-and-set, yet as long as no confirmation commits
   after its hold has ended, a miss has restored nothing.
   */
  lemma MissRestoresNothing(s: State, r: Reading, k: nat)
    requires Inv(s) && r in s.readings && k < |r.candidates| && OutcomeOf(s.slots, r.candidates[k]) == Skipped
    ensures ReleaseExpired(s.slots, r.candidates[k]) == s.slots
  {
    ReleaseIs(s.slots, r.candidates[k], s.clock, s.nextId);
  }

  /** Retiring a consumer frees exactly the rows that still point at it, and leaves every other row alone. */
  lemma RetireFreesExactly(s: State, id: Id, k: Id)
    requires Sound(s) && id in s.slots && k in s.slots && k != id
    ensures var after := Retire(s.slots, s.slots[id].court, id);
            k in after
            && (s.slots[k].consumedBy == Some(id) ==> after[k].status == Available && after[k].consumedBy == None)
            && (s.slots[k].consumedBy != Some(id) ==> after[k] == s.slots[k])
  {
  }

  // ----------------------------------------------------------- when a placement commits

  lemma OffersMatch(p: Placement, scan: seq<Slot>, slots: Table, next: Id)
    requires ScanOf(scan, p.snapshot, p.interval) && AllUnchanged(slots, p.snapshot, ConsumableIds(scan, p.at))
    requires TableOk(slots, next)
    ensures var ids, stale := ConsumableIds(scan, p.at), StaleIds(scan, p.at);
            forall id :: id in ids ==> id in slots && ConsumeFilter(slots[id], p.interval, ids, stale, p.at)
  {
  }

  /** What the classifier offers, the update's own filter matches: consuming never conflicts. */
  lemma ConsumingMatchesAll(s: State, p: Placement, scan: seq<Slot>)
    requires Sound(s) && ScanOf(scan, p.snapshot, p.interval) && !p.request.FixedHold?
    requires AllUnchanged(s.slots, p.snapshot, ConsumableIds(scan, p.at))
    ensures var ids, stale := ConsumableIds(scan, p.at), StaleIds(scan, p.at);
            ConsumedIds(s.slots[s.nextId := OpenRow(p, s.nextId)], p.interval, ids, stale, p.at) == ids
  {
  }

  /**
   An open-time placement commits exactly when the court is as it read it, nothing it saw
   blocks, the interval is free of its kind and the rows it takes are untouched; the count
   check on consumption never stops it.
   */
  lemma OpenPlacementCommits(s: State, p: Placement, scan: seq<Slot>)
    requires Sound(s) && p in s.placements && !p.request.FixedHold? && ScanOf(scan, p.snapshot, p.interval)
    ensures Commit(s, p, scan).Ok?
       <==> s.courts[p.interval.court] == p.courtVersion && !SomethingBlocks(scan, p.at, OpenTime)
            && !IntervalTaken(s.slots, p.interval, OpenTime) && AllUnchanged(s.slots, p.snapshot, ConsumableIds(scan, p.at))
  {
    if AllUnchanged(s.slots, p.snapshot, ConsumableIds(scan, p.at)) {
      ConsumingMatchesAll(s, p, scan);
    }
  }

  /** The grid under a committed open-time slot is consumed by it, row by row of what it scanned. */
  lemma GridConsumed(s: State, p: Placement, scan: seq<Slot>, k: nat)
    requires Sound(s) && p in s.placements && !p.request.FixedHold? && ScanOf(scan, p.snapshot, p.interval)
    requires Commit(s, p, scan).Ok? && k < |scan| && scan[k].slotType == FixedSlot
    ensures var after := Commit(s, p, scan).value.slots;
            scan[k].id in after && after[scan[k].id].status == Unavailable && after[scan[k].id].consumedBy == Some(s.nextId)
  {
    CommitOpenIs(s, p, scan);
    var stale := StaleIds(scan, p.at);
    assert !Blocks(scan[k], p.at, OpenTime, stale);
    assert scan[k].id in ConsumableIds(scan, p.at);
    OffersMatch(p, scan, s.slots, s.nextId);
  }

  // ------------------------------------------------------- what an expired hold costs

  predicate NoReaping(steps: seq<Step>) {
    forall n :: 0 <= n < |steps| ==> !steps[n].SReap?
  }

  lemma ClockRises(s: State, step: Step)
    requires Possible(s, step)
    ensures s.clock <= After(s, step).clock
  {
  }

  /**
   Until the reaper comes, an expired open-time hold stays as it is, whatever else happens,
   and every placement of its exact interval fails.
   */
  lemma {:induction false} ExpiredHoldStays(s: State, steps: seq<Step>, id: Id)
    requires Sound(s) && PossibleRun(s, steps) && TimelyRun(s, steps) && NoReaping(steps)
    requires id in s.slots && StaleHold(s.slots[id], s.clock)
    ensures var t, row := Run(s, steps), s.slots[id];
            && id in t.slots && t.slots[id] == row && StaleHold(row, t.clock)
            && (forall p: Placement, scan: seq<Slot> :: !p.request.FixedHold? && IsPlaceOf(p, row) ==> Commit(t, p, scan).Err?)
  {
    if steps != [] {
      var init, last := steps[..|steps| - 1], steps[|steps| - 1];
      assert forall n :: 0 <= n < |init| ==> init[..n] == steps[..n] && init[n] == steps[n];
      ExpiredHoldStays(s, init, id);
      RunKeepsSound(s, init);
      StepLeaves(Run(s, init), last);
      ClockRises(Run(s, init), last);
    }
  }

  predicate IsPlaceOf(p: Placement, row: Slot) {
    p.interval == Interval(row.court, row.environment, row.startsAt, row.endsAt)
  }
}
