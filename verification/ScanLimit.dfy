/**
 What the limit on an overlap scan costs: exclusivity holds over all runs whose placements
 meet at most as many rows as a scan may return, and over no larger class of runs.
 */
module ScanLimit {
  import opened Base
  import opened Slots
  import opened Inventory
  import opened InventoryInvariant
  import opened InventoryTheorems

  /** No committed placement overlaps more than `n` rows of its snapshot. */
  predicate AtMost(steps: seq<Step>, n: nat) {
    forall k :: 0 <= k < |steps| && steps[k].SCommit? ==>
      |OverlapIds(steps[k].placement.snapshot, steps[k].placement.interval)| <= n
  }

  lemma {:induction false} SmallScansKeep(s: State, steps: seq<Step>)
    requires Inv(s) && PossibleRun(s, steps) && AtMost(steps, OVERLAP_SCAN_LIMIT) && TimelyRun(s, steps)
    ensures Inv(Run(s, steps))
  {
    if steps != [] {
      var init, last := steps[..|steps| - 1], steps[|steps| - 1];
      assert forall n :: 0 <= n < |init| ==> init[..n] == steps[..n] && init[n] == steps[n];
      SmallScansKeep(s, init);
      var before := Run(s, init);
      assert Possible(before, last);
      if last.SCommit? {
        assert PlacementOk(last.placement, before.slots, before.courts, before.clock);
        ScanComplete(last.scan, last.placement.snapshot, last.placement.interval);
      }
      StepKeeps(before, last);
    }
  }

  predicate SoldApart(s: State) {
    forall i, j :: i in s.slots && j in s.slots && i != j && Collide(s.slots[i], s.slots[j]) ==>
      !(Sold(s.slots[i], s.clock) && Sold(s.slots[j], s.clock))
  }

  // ------------------------------------------- a run with 201 rows under one placement

  function Hour(from: int, to: int): Interval {
    Interval(0, Production, from * HOUR_MS, to * HOUR_MS)
  }

  function FreeRow(k: Id): Slot {
    Slot(k, 0, Production, FixedSlot, k * HOUR_MS, (k + 1) * HOUR_MS, Some(0), Available, None, None, None, SystemGenerated, None, None, 1)
  }

  /** `n` free hours in a row. */
  function Grid(n: nat): State {
    State(map k: Id | 0 <= k < n :: FreeRow(k), map[0 := 0], n, 0, {}, {})
  }

  function Adds(n: nat): (steps: seq<Step>)
    ensures |steps| == n
  {
    if n == 0 then [] else Adds(n - 1) + [SAddFixed(Hour(n - 1, n), Some(0))]
  }

  const HOME := Start(map[0 := 0], 0)

  lemma RunSnoc(s: State, steps: seq<Step>, step: Step)
    requires PossibleRun(s, steps) && Possible(Run(s, steps), step)
    ensures Run(s, steps + [step]) == After(Run(s, steps), step)
    ensures PossibleRun(s, steps + [step])
  {
    var all := steps + [step];
    assert all[..|steps|] == steps;
    forall n | 0 <= n < |all|
      ensures Possible(Run(s, all[..n]), all[n])
    {
      if n < |steps| {
        assert all[..n] == steps[..n];
      }
    }
  }

  lemma GridStep(n: nat)
    ensures AddFixed(Grid(n), Hour(n, n + 1), Some(0)) == Ok(Grid(n + 1))
  {
    assert Grid(n).slots[n := FreeRow(n)] == Grid(n + 1).slots;
  }

  lemma GridNext(steps: seq<Step>, n: nat)
    requires PossibleRun(HOME, steps) && Run(HOME, steps) == Grid(n)
    ensures var longer := steps + [SAddFixed(Hour(n, n + 1), Some(0))]; PossibleRun(HOME, longer) && Run(HOME, longer) == Grid(n + 1)
  {
    GridStep(n);
    RunSnoc(HOME, steps, SAddFixed(Hour(n, n + 1), Some(0)));
  }

  lemma {:induction false} NoCommits(n: nat)
    ensures forall k :: 0 <= k < n ==> Adds(n)[k].SAddFixed?
  {
    if n > 0 {
      NoCommits(n - 1);
    }
  }

  lemma EmptyGrid()
    ensures Grid(0) == HOME
  {
  }

  lemma {:induction false} GridRun(n: nat)
    ensures PossibleRun(HOME, Adds(n)) && Run(HOME, Adds(n)) == Grid(n)
  {
    if n == 0 {
      EmptyGrid();
    } else {
      GridRun(n - 1);
      GridNext(Adds(n - 1), n - 1);
    }
  }

  lemma GridInv(n: nat)
    ensures Inv(Grid(n))
  {
  }

  function Below(n: nat): (ids: set<Id>)
    ensures |ids| == n && forall k :: k in ids <==> 0 <= k < n
  {
    if n == 0 then {} else Below(n - 1) + {n - 1}
  }

  function Short(): Placement {
    Placement(DirectBooking, Hour(200, 201), 0, 0, Grid(200).slots)
  }

  function Taken(): State {
    State(Grid(200).slots[200 := OpenRow(Short(), 200)], map[0 := 1], 202, 0, {Short()}, {})
  }

  function Long(): Placement {
    Placement(DirectBooking, Hour(0, 201), 0, 1, Taken().slots)
  }

  function FreeScan(): (scan: seq<Slot>)
    ensures |scan| == 200
  {
    seq(200, k requires 0 <= k < 200 => FreeRow(k))
  }

  lemma ShortIs(s: State)
    requires s == Grid(200).(placements := {Short()}) && Inv(s)
    ensures ScanOf([], Short().snapshot, Short().interval) && Commit(s, Short(), []).Ok?
    ensures Commit(s, Short(), []).value == s.(slots := s.slots[200 := OpenRow(Short(), 200)], courts := map[0 := 1], nextId := 202)
  {
  }

  lemma ShortCommits()
    ensures ScanOf([], Short().snapshot, Short().interval)
    ensures Commit(Grid(200).(placements := {Short()}), Short(), []) == Ok(Taken())
    ensures Inv(Taken())
  {
    var s := Grid(200).(placements := {Short()});
    GridInv(200);
    assert Inv(s);
    ShortIs(s);
    CommitOpenKeeps(s, Short(), []);
  }

  lemma LongScan()
    ensures ScanOf(FreeScan(), Long().snapshot, Long().interval)
    ensures !SomethingBlocks(FreeScan(), 0, OpenTime)
  {
  }

  lemma LongUnchanged(slots: Table)
    requires slots == Long().snapshot
    ensures AllUnchanged(slots, Long().snapshot, ConsumableIds(FreeScan(), 0))
  {
  }

  lemma LongCommits(s: State)
    requires s == Taken().(placements := {Short(), Long()})
    ensures Commit(s, Long(), FreeScan()).Ok?
    ensures var after := Commit(s, Long(), FreeScan()).value.slots;
            200 in after && 202 in after && after[200] == OpenRow(Short(), 200) && after[202] == OpenRow(Long(), 202)
  {
    ShortCommits();
    BeginKeeps(Taken(), Long());
    assert Taken().placements + {Long()} == {Short(), Long()};
    LongScan();
    LongUnchanged(s.slots);
    OpenPlacementCommits(s, Long(), FreeScan());
    CommitOpenIs(s, Long(), FreeScan());
  }

  function CrowdedRun(): seq<Step> {
    Adds(200) + [SBeginOpen(DirectBooking, Hour(200, 201), 0)] + [SCommit(Short(), [])]
    + [SBeginOpen(DirectBooking, Hour(0, 201), 0)] + [SCommit(Long(), FreeScan())]
  }

  /** The run up to the second booking. */
  lemma ShortRun() returns (steps: seq<Step>)
    ensures steps == Adds(200) + [SBeginOpen(DirectBooking, Hour(200, 201), 0)] + [SCommit(Short(), [])]
    ensures PossibleRun(HOME, steps) && Run(HOME, steps) == Taken()
  {
    GridRun(200);
    var one := Adds(200) + [SBeginOpen(DirectBooking, Hour(200, 201), 0)];
    RunSnoc(HOME, Adds(200), SBeginOpen(DirectBooking, Hour(200, 201), 0));
    assert Run(HOME, one) == Grid(200).(placements := {Short()});
    ShortCommits();
    steps := one + [SCommit(Short(), [])];
    RunSnoc(HOME, one, SCommit(Short(), []));
  }

  lemma LongRun(steps: seq<Step>) returns (longer: seq<Step>)
    requires PossibleRun(HOME, steps) && Run(HOME, steps) == Taken()
    ensures longer == steps + [SBeginOpen(DirectBooking, Hour(0, 201), 0)] + [SCommit(Long(), FreeScan())]
    ensures PossibleRun(HOME, longer) && !SoldApart(Run(HOME, longer))
  {
    var three := steps + [SBeginOpen(DirectBooking, Hour(0, 201), 0)];
    RunSnoc(HOME, steps, SBeginOpen(DirectBooking, Hour(0, 201), 0));
    assert Taken().placements + {Long()} == {Short(), Long()};
    LongScan();
    longer := three + [SCommit(Long(), FreeScan())];
    RunSnoc(HOME, three, SCommit(Long(), FreeScan()));
    LongCommits(Run(HOME, three));
    assert Collide(OpenRow(Short(), 200), OpenRow(Long(), 202));
  }

  lemma CrowdedRunPossible()
    ensures PossibleRun(HOME, CrowdedRun()) && !SoldApart(Run(HOME, CrowdedRun()))
  {
    var steps := ShortRun();
    var longer := LongRun(steps);
  }

  lemma OverlapCounts()
    ensures |OverlapIds(Short().snapshot, Short().interval)| == 0
    ensures |OverlapIds(Long().snapshot, Long().interval)| <= 201
  {
    assert OverlapIds(Short().snapshot, Short().interval) == {};
    FewerInSubset(OverlapIds(Long().snapshot, Long().interval), Below(201));
  }

  lemma AtMostSnoc(steps: seq<Step>, step: Step, n: nat)
    requires AtMost(steps, n)
    requires step.SCommit? ==> |OverlapIds(step.placement.snapshot, step.placement.interval)| <= n
    ensures AtMost(steps + [step], n)
  {
  }

  lemma CrowdedRunSize()
    ensures AtMost(CrowdedRun(), OVERLAP_SCAN_LIMIT + 1)
  {
    NoCommits(200);
    OverlapCounts();
    var most := OVERLAP_SCAN_LIMIT + 1;
    var one := Adds(200) + [SBeginOpen(DirectBooking, Hour(200, 201), 0)];
    var two := one + [SCommit(Short(), [])];
    var three := two + [SBeginOpen(DirectBooking, Hour(0, 201), 0)];
    AtMostSnoc(Adds(200), SBeginOpen(DirectBooking, Hour(200, 201), 0), most);
    AtMostSnoc(one, SCommit(Short(), []), most);
    AtMostSnoc(two, SBeginOpen(DirectBooking, Hour(0, 201), 0), most);
    AtMostSnoc(three, SCommit(Long(), FreeScan()), most);
  }

  /** Nobody confirms anything in that run. */
  lemma CrowdedRunConfirmsNothing()
    ensures forall k :: 0 <= k < |CrowdedRun()| ==> !CrowdedRun()[k].SConfirm?
  {
    NoCommits(200);
  }
}
