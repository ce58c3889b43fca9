/**
 What a late confirmation costs: a confirmation judges its hold by a clock it read at the
 start of its transaction; when it commits, the hold may have ended and its interval or its
 grid may have gone to someone else. Here are the runs in which that does harm, and why
 there is none as long as no confirmation takes as long as its hold had left.
 */
module LateConfirmation {
  import opened Base
  import opened Slots
  import opened Inventory
  import opened InventoryInvariant
  import opened InventorySound
  import opened InventoryTheorems
  import opened ScanLimit

  /** A confirmation that goes through commits at most `d` after it read the clock, and its hold had at least `m` left then. */
  predicate Prompt(s: State, step: Step, d: nat, m: nat) {
    step.SConfirm? && Confirmable(s, step.slot, step.holdId, step.partner, step.environment, step.at) ==>
      s.clock <= step.at + d && s.slots[step.slot].holdExpiresAt.value >= step.at + m
  }

  predicate PromptRun(s: State, steps: seq<Step>, d: nat, m: nat) {
    forall k :: 0 <= k < |steps| ==> Prompt(Run(s, steps[..k]), steps[k], d, m)
  }

  lemma PromptIsTimely(s: State, steps: seq<Step>, d: nat, m: nat)
    requires PromptRun(s, steps, d, m) && d < m
    ensures TimelyRun(s, steps)
  {
    forall k | 0 <= k < |steps|
      ensures Timely(Run(s, steps[..k]), steps[k])
    {
      assert Prompt(Run(s, steps[..k]), steps[k], d, m);
    }
  }

  lemma PromptSnoc(s: State, steps: seq<Step>, step: Step, d: nat, m: nat)
    requires PromptRun(s, steps, d, m) && Prompt(Run(s, steps), step, d, m)
    ensures PromptRun(s, steps + [step], d, m)
  {
    var all := steps + [step];
    assert all[..|steps|] == steps;
    assert forall k :: 0 <= k < |steps| ==> all[..k] == steps[..k] && all[k] == steps[k];
  }

  /** A run from `HOME` that ends in `s`, within the three bounds. */
  ghost predicate Reaches(steps: seq<Step>, s: State, n: nat, d: nat, m: nat) {
    PossibleRun(HOME, steps) && Run(HOME, steps) == s && AtMost(steps, n) && PromptRun(HOME, steps, d, m)
  }

  lemma Reach(steps: seq<Step>, s: State, step: Step, n: nat, d: nat, m: nat) returns (longer: seq<Step>)
    requires Reaches(steps, s, n, d, m) && Possible(s, step) && Prompt(s, step, d, m)
    requires step.SCommit? ==> |OverlapIds(step.placement.snapshot, step.placement.interval)| <= n
    ensures longer == steps + [step] && Reaches(longer, After(s, step), n, d, m)
  {
    longer := steps + [step];
    RunSnoc(HOME, steps, step);
    AtMostSnoc(steps, step, n);
    PromptSnoc(HOME, steps, step, d, m);
  }

  // ------------------------------------------------------ a hold confirmed under another

  function Stretch(from: int, to: int): Interval {
    Interval(0, Production, from, to)
  }

  /** A hold of `m` milliseconds on a stretch that starts later. */
  function First(m: nat): Placement {
    Placement(OpenHold(7, 0, m), Stretch(m + 100, m + 200), 0, 0, map[])
  }

  function Held(m: nat): State {
    State(map[0 := OpenRow(First(m), 0)], map[0 := 1], 2, 0, {First(m)}, {})
  }

  /** Another hold, placed across the first when that one has ended. */
  function Second(m: nat): Placement {
    Placement(OpenHold(8, 0, 10), Stretch(m + 150, m + 250), m, 1, Held(m).slots)
  }

  function BothHeld(m: nat): State {
    State(Held(m).slots[2 := OpenRow(Second(m), 2)], map[0 := 2], 4, m, {First(m), Second(m)}, {})
  }

  const LATE := SConfirm(0, 1, 7, Production, 0)

  lemma FirstCommits(m: nat)
    ensures ScanOf([], First(m).snapshot, First(m).interval)
    ensures Commit(HOME.(placements := {First(m)}), First(m), []) == Ok(Held(m))
  {
    var s, p := HOME.(placements := {First(m)}), First(m);
    assert !SomethingBlocks([], 0, OpenTime) && ConsumableIds([], 0) == {} && !IntervalTaken(s.slots, p.interval, OpenTime);
    assert s.slots[0 := OpenRow(p, 0)] == Held(m).slots && Bump(s.courts, 0) == Held(m).courts;
  }

  lemma SecondCommits(m: nat, s: State)
    requires s == Held(m).(clock := m, placements := {First(m), Second(m)})
    ensures ScanOf([Held(m).slots[0]], Second(m).snapshot, Second(m).interval)
    ensures Commit(s, Second(m), [Held(m).slots[0]]) == Ok(BothHeld(m))
    ensures |OverlapIds(Second(m).snapshot, Second(m).interval)| <= 1
  {
    var scan, p := [Held(m).slots[0]], Second(m);
    assert !SomethingBlocks(scan, m, OpenTime) && ConsumableIds(scan, m) == {} && !IntervalTaken(s.slots, p.interval, OpenTime);
    assert s.slots[2 := OpenRow(p, 2)] == BothHeld(m).slots && Bump(s.courts, 0) == BothHeld(m).courts;
    FewerInSubset(OverlapIds(Second(m).snapshot, Second(m).interval), {0});
  }

  lemma LateConfirms(m: nat)
    requires m > 0
    ensures Confirmable(BothHeld(m), 0, 1, 7, Production, 0) && BothHeld(m).slots[0].holdExpiresAt == Some(m)
    ensures !SoldApart(After(BothHeld(m), LATE))
  {
    var s := After(BothHeld(m), LATE);
    assert Collide(s.slots[0], s.slots[2]);
  }

  /** The first hold is placed and ends. */
  lemma HeldRun(n: nat, d: nat, m: nat) returns (steps: seq<Step>)
    ensures Reaches(steps, Held(m).(clock := m), n, d, m)
  {
    var first := First(m);
    steps := Reach([], HOME, SBeginOpen(first.request, first.interval, 0), n, d, m);
    FirstCommits(m);
    assert OverlapIds(first.snapshot, first.interval) == {};
    assert HOME.placements + {first} == {first};
    steps := Reach(steps, HOME.(placements := {first}), SCommit(first, []), n, d, m);
    steps := Reach(steps, Held(m), Tick(m), n, d, m);
  }

  lemma LateRun(n: nat, d: nat, m: nat) returns (steps: seq<Step>)
    requires 0 < m <= d && n > 0
    ensures PossibleRun(HOME, steps) && AtMost(steps, n) && PromptRun(HOME, steps, d, m) && !SoldApart(Run(HOME, steps))
  {
    var first, second, held := First(m), Second(m), Held(m).(clock := m);
    steps := HeldRun(n, d, m);
    steps := Reach(steps, held, SBeginOpen(second.request, second.interval, m), n, d, m);
    assert held.placements + {second} == {first, second};
    SecondCommits(m, held.(placements := {first, second}));
    steps := Reach(steps, held.(placements := {first, second}), SCommit(second, [Held(m).slots[0]]), n, d, m);
    LateConfirms(m);
    steps := Reach(steps, BothHeld(m), LATE, n, d, m);
  }

  // -------------------------------------------------- when the reaper's misses are harmless

  /** No batch under way would restore anything for a candidate it then fails to release. */
  predicate MissesNothing(s: State) {
    forall r, k :: r in s.readings && 0 <= k < |r.candidates| && OutcomeOf(s.slots, r.candidates[k]) == Skipped ==>
      ReleaseExpired(s.slots, r.candidates[k]) == s.slots
  }

  /** An expired open-time candidate is as it was read, or gone. */
  predicate CandidatesStay(s: State) {
    forall r, k :: r in s.readings && 0 <= k < |r.candidates| ==> CandidateOk(r.candidates[k], s.slots, s.clock, s.nextId)
  }

  lemma StayingMisses(s: State)
    requires Sound(s) && CandidatesStay(s)
    ensures MissesNothing(s)
  {
    forall r, k | r in s.readings && 0 <= k < |r.candidates| && OutcomeOf(s.slots, r.candidates[k]) == Skipped
      ensures ReleaseExpired(s.slots, r.candidates[k]) == s.slots
    {
      ReleaseIs(s.slots, r.candidates[k], s.clock, s.nextId);
    }
  }

  lemma StepStays(s: State, step: Step)
    requires Sound(s) && CandidatesStay(s) && Possible(s, step) && Timely(s, step)
    ensures CandidatesStay(After(s, step))
  {
    var t := After(s, step);
    StepKeepsSound(s, step);
    StepLeaves(s, step);
    forall r, k | r in t.readings && 0 <= k < |r.candidates|
      ensures CandidateOk(r.candidates[k], t.slots, t.clock, t.nextId)
    {
      assert ReadingSound(r, t.slots, t.clock, t.nextId);
      assert CandidateRead(r.candidates[k], t.slots, t.clock, t.nextId);
      if r in s.readings {
        assert CandidateOk(r.candidates[k], s.slots, s.clock, s.nextId);
      }
    }
  }

  lemma {:induction false} RunStays(s: State, steps: seq<Step>)
    requires Sound(s) && CandidatesStay(s) && PossibleRun(s, steps) && TimelyRun(s, steps)
    ensures Sound(Run(s, steps)) && CandidatesStay(Run(s, steps))
  {
    if steps != [] {
      var init := steps[..|steps| - 1];
      assert forall n :: 0 <= n < |init| ==> init[..n] == steps[..n] && init[n] == steps[n];
      RunStays(s, init);
      StepKeepsSound(Run(s, init), steps[|steps| - 1]);
      StepStays(Run(s, init), steps[|steps| - 1]);
    }
  }

  function Beneath(m: nat): Slot {
    Slot(0, 0, Production, FixedSlot, m + 100, m + 200, Some(0), Available, None, None, None, SystemGenerated, None, None, 1)
  }

  function OneRow(m: nat): State {
    State(map[0 := Beneath(m)], map[0 := 0], 1, 0, {}, {})
  }

  /** A hold that consumes the one fixed slot. */
  function Over(m: nat): Placement {
    Placement(OpenHold(7, 0, m), Stretch(m + 100, m + 200), 0, 0, OneRow(m).slots)
  }

  function Consumed(m: nat): State {
    State(map[0 := ConsumedBy(Beneath(m), 1), 1 := OpenRow(Over(m), 1)], map[0 := 1], 3, m, {Over(m)}, {Reading(m, [OpenRow(Over(m), 1)])})
  }

  lemma OneRowAdded(m: nat)
    ensures AddFixed(HOME, Stretch(m + 100, m + 200), Some(0)) == Ok(OneRow(m))
  {
    assert HOME.slots[0 := Beneath(m)] == OneRow(m).slots;
  }

  lemma OverCommits(m: nat, s: State)
    requires s == OneRow(m).(placements := {Over(m)})
    ensures ScanOf([Beneath(m)], Over(m).snapshot, Over(m).interval)
    ensures Commit(s, Over(m), [Beneath(m)]) == Ok(Consumed(m).(clock := 0, readings := {}))
  {
    var scan, p := [Beneath(m)], Over(m);
    assert scan[0] in scan && StaleIds(scan, 0) == {} && ConsumableIds(scan, 0) == {0};
    assert !SomethingBlocks(scan, 0, OpenTime) && !IntervalTaken(s.slots, p.interval, OpenTime) && AllUnchanged(s.slots, p.snapshot, {0});
    var inserted := s.slots[1 := OpenRow(p, 1)];
    assert ConsumedIds(inserted, p.interval, {0}, {}, 0) == {0};
    assert ConsumeAll(inserted, 1, p.interval, {0}, {}, 0) == Consumed(m).slots && Bump(s.courts, 0) == Consumed(m).courts;
  }

  /** The booked consumer makes the reaper miss, after it has restored the slot below. */
  lemma LateMiss(m: nat)
    requires m > 0
    ensures Confirmable(Consumed(m), 1, 2, 7, Production, 0) && Consumed(m).slots[1].holdExpiresAt == Some(m)
    ensures !MissesNothing(After(Consumed(m), SConfirm(1, 2, 7, Production, 0)))
  {
    var s, c := After(Consumed(m), SConfirm(1, 2, 7, Production, 0)), OpenRow(Over(m), 1);
    assert OutcomeOf(s.slots, c) == Skipped && ReleaseExpired(s.slots, c)[0].status == Available && s.slots[0].status == Unavailable;
    assert Reading(m, [c]) in s.readings && [c][0] == c;
  }

  lemma AddedRun(d: nat, m: nat) returns (steps: seq<Step>)
    ensures Reaches(steps, OneRow(m), 1, d, m)
  {
    OneRowAdded(m);
    assert Reaches([], HOME, 1, d, m);
    var add := SAddFixed(Stretch(m + 100, m + 200), Some(0));
    assert After(HOME, add) == OneRow(m);
    steps := Reach([], HOME, add, 1, d, m);
  }

  /** The hold is begun and commits, consuming the slot. */
  lemma OverSteps(m: nat)
    ensures Possible(OneRow(m), SBeginOpen(Over(m).request, Over(m).interval, 0))
    ensures After(OneRow(m), SBeginOpen(Over(m).request, Over(m).interval, 0)) == OneRow(m).(placements := {Over(m)})
    ensures var s := OneRow(m).(placements := {Over(m)});
            Possible(s, SCommit(Over(m), [Beneath(m)])) && After(s, SCommit(Over(m), [Beneath(m)])) == Consumed(m).(clock := 0, readings := {})
    ensures |OverlapIds(Over(m).snapshot, Over(m).interval)| <= 1
  {
    assert OneRow(m).placements + {Over(m)} == {Over(m)};
    OverCommits(m, OneRow(m).(placements := {Over(m)}));
    FewerInSubset(OverlapIds(Over(m).snapshot, Over(m).interval), {0});
  }

  lemma OverRun(d: nat, m: nat) returns (steps: seq<Step>)
    ensures Reaches(steps, Consumed(m).(clock := 0, readings := {}), 1, d, m)
  {
    steps := AddedRun(d, m);
    OverSteps(m);
    var s := OneRow(m).(placements := {Over(m)});
    steps := Reach(steps, OneRow(m), SBeginOpen(Over(m).request, Over(m).interval, 0), 1, d, m);
    steps := Reach(steps, s, SCommit(Over(m), [Beneath(m)]), 1, d, m);
  }

  lemma LateMissRun(d: nat, m: nat) returns (steps: seq<Step>)
    requires 0 < m <= d
    ensures PossibleRun(HOME, steps) && PromptRun(HOME, steps, d, m) && !MissesNothing(Run(HOME, steps))
  {
    var c := OpenRow(Over(m), 1);
    steps := OverRun(d, m);
    steps := Reach(steps, Consumed(m).(clock := 0, readings := {}), Tick(m), 1, d, m);
    var s := Consumed(m).(readings := {});
    assert s.readings + {Reading(m, [c])} == {Reading(m, [c])};
    steps := Reach(steps, s, SRead(Reading(m, [c])), 1, d, m);
    LateMiss(m);
    steps := Reach(steps, Consumed(m), SConfirm(1, 2, 7, Production, 0), 1, d, m);
  }
}
