/**
 Over all runs, exactly when nothing is sold twice, and exactly when the reaper restores
 only what it then releases: how many rows a scan may meet, how long a confirmation may take
 and how much its hold must have left, which in the code is a single millisecond.
 */
module ExactSafety {
  import opened Base
  import opened Slots
  import opened Inventory
  import opened InventoryInvariant
  import opened InventoryTheorems
  import opened ScanLimit
  import opened LateConfirmation

  /** However late, a confirmation keeps the court exclusive exactly when nothing that collides with its slot is occupied. */
  lemma LateConfirmIsExact(s: State, slot: Id, holdId: Id, partner: Id, environment: Environment, at: Time)
    requires Exclusive(s.slots, s.clock) && Confirm(s, slot, holdId, partner, environment, at).Ok?
    ensures Exclusive(Confirm(s, slot, holdId, partner, environment, at).value.slots, s.clock)
       <==> forall k :: k in s.slots && k != slot && Collide(s.slots[k], s.slots[slot]) ==> !Occupies(s.slots[k], s.clock)
  {
    var row := BookedFrom(s.slots[slot], s.nextId);
    var after := s.slots[slot := row];
    forall k | k in s.slots && k != slot
      ensures Collide(after[k], row) == Collide(s.slots[k], s.slots[slot]) && after[k] == s.slots[k]
    {
    }
    if Exclusive(after, s.clock) {
      forall k | k in s.slots && k != slot && Collide(s.slots[k], s.slots[slot])
        ensures !Occupies(s.slots[k], s.clock)
      {
        assert Collide(after[k], after[slot]) && Occupies(after[slot], s.clock);
      }
    } else if forall k :: k in s.slots && k != slot && Collide(s.slots[k], row) ==> !Occupies(s.slots[k], s.clock) {
      ExclusiveWith(s.slots, s.clock, slot, row);
    }
  }

  // ------------------------------------------------------------- when nothing is sold twice

  /**
   Over every run from no slots in which placements meet at most `n` rows, confirmations
   take at most `d` and holds have at least `m` left: nothing is sold twice.
   */
  ghost predicate SafeUnder(n: nat, d: nat, m: nat) {
    forall courts, clock, steps :: PossibleRun(Start(courts, clock), steps) && AtMost(steps, n) && PromptRun(Start(courts, clock), steps, d, m) ==>
      SoldApart(Run(Start(courts, clock), steps))
  }

  lemma PromptIsOnTime(s: State, steps: seq<Step>, d: nat, m: nat)
    requires PromptRun(s, steps, d, m) && (d < m || d == 0)
    ensures TimelyRun(s, steps)
  {
    if d == 0 { NoMargin(s, steps, d, m); }
    PromptIsTimely(s, steps, d, if d == 0 then 1 else m);
  }

  /** A margin of none is a margin of one: the code asks for a hold that has not ended. */
  lemma NoMargin(s: State, steps: seq<Step>, d: nat, m: nat)
    requires PromptRun(s, steps, d, m)
    ensures PromptRun(s, steps, d, if m == 0 then 1 else m) && PromptRun(s, steps, d, 1)
  {
    forall k | 0 <= k < |steps|
      ensures Prompt(Run(s, steps[..k]), steps[k], d, if m == 0 then 1 else m) && Prompt(Run(s, steps[..k]), steps[k], d, 1)
    {
      assert Prompt(Run(s, steps[..k]), steps[k], d, m);
    }
  }

  lemma LessMargin(s: State, steps: seq<Step>, d: nat, more: nat, m: nat)
    requires PromptRun(s, steps, d, more) && m <= more
    ensures PromptRun(s, steps, d, m)
  {
    forall k | 0 <= k < |steps|
      ensures Prompt(Run(s, steps[..k]), steps[k], d, m)
    {
      assert Prompt(Run(s, steps[..k]), steps[k], d, more);
    }
  }

  lemma SafeHalf(n: nat, d: nat, m: nat)
    requires n <= OVERLAP_SCAN_LIMIT && (d < m || d == 0)
    ensures SafeUnder(n, d, m)
  {
    forall courts, clock, steps | PossibleRun(Start(courts, clock), steps) && AtMost(steps, n) && PromptRun(Start(courts, clock), steps, d, m)
      ensures SoldApart(Run(Start(courts, clock), steps))
    {
      PromptIsOnTime(Start(courts, clock), steps, d, m);
      SmallScansKeep(Start(courts, clock), steps);
    }
  }

  lemma CrowdedIsPrompt(d: nat, m: nat)
    ensures PromptRun(HOME, CrowdedRun(), d, m)
  {
    CrowdedRunConfirmsNothing();
  }

  /**
   Nothing is ever sold twice exactly as long as no placement meets more than 200 rows and
   no confirmation takes as long as its hold had left, or none takes any time. With 201
   rows, a run that generates a grid, books an hour and then books the whole stretch sells
   that hour twice; with a confirmation that takes `m`, a hold of `m` is confirmed over one
   placed across it since.
   */
  lemma SafetyIsExact(n: nat, d: nat, m: nat)
    requires n > 0
    ensures SafeUnder(n, d, m) <==> n <= OVERLAP_SCAN_LIMIT && (d < m || d == 0)
  {
    if n > OVERLAP_SCAN_LIMIT {
      CrowdedRunPossible();
      CrowdedRunSize();
      assert AtMost(CrowdedRun(), n);
      CrowdedIsPrompt(d, m);
    } else if d < m || d == 0 {
      SafeHalf(n, d, m);
    } else {
      var left := if m == 0 then 1 else m;
      var steps := LateRun(n, d, left);
      LessMargin(HOME, steps, d, left, m);
    }
  }

  /** Every confirmation of the run that goes through commits at most `d` after it read the clock. */
  predicate Within(s: State, steps: seq<Step>, d: nat) {
    forall k :: 0 <= k < |steps| ==> CommitsWithin(Run(s, steps[..k]), steps[k], d)
  }

  predicate CommitsWithin(s: State, step: Step, d: nat) {
    step.SConfirm? && Confirmable(s, step.slot, step.holdId, step.partner, step.environment, step.at) ==> s.clock <= step.at + d
  }

  ghost predicate SafeWithin(n: nat, d: nat) {
    forall courts, clock, steps :: PossibleRun(Start(courts, clock), steps) && AtMost(steps, n) && Within(Start(courts, clock), steps, d) ==>
      SoldApart(Run(Start(courts, clock), steps))
  }

  /** The code's own filter asks only for a hold that has not ended, which is a margin of one. */
  lemma MarginIsOne(s: State, steps: seq<Step>, d: nat)
    ensures Within(s, steps, d) <==> PromptRun(s, steps, d, 1)
  {
    forall k | 0 <= k < |steps|
      ensures CommitsWithin(Run(s, steps[..k]), steps[k], d) <==> Prompt(Run(s, steps[..k]), steps[k], d, 1)
    {
    }
  }

  /** As the code stands, nothing is ever sold twice exactly as long as confirmations commit in the millisecond in which they read the clock. */
  lemma CodeIsExact(n: nat, d: nat)
    requires n > 0
    ensures SafeWithin(n, d) <==> n <= OVERLAP_SCAN_LIMIT && d == 0
  {
    forall courts, clock, steps
      ensures Within(Start(courts, clock), steps, d) <==> PromptRun(Start(courts, clock), steps, d, 1)
    {
      MarginIsOne(Start(courts, clock), steps, d);
    }
    SafetyIsExact(n, d, 1);
  }

  // -------------------------------------------------- when the reaper's misses are harmless

  /** Over every run within the bounds, whatever its scans met, the reaper restores only what it then releases. */
  ghost predicate ReaperSafeUnder(d: nat, m: nat) {
    forall courts, clock, steps :: PossibleRun(Start(courts, clock), steps) && PromptRun(Start(courts, clock), steps, d, m) ==>
      MissesNothing(Run(Start(courts, clock), steps))
  }

  /**
   The reaper never restores a slot whose consumer it then fails to release, exactly as long
   as no confirmation takes as long as its hold had left, or none takes any time. Otherwise
   a slot below a booking is put back on offer.
   */
  lemma ReaperIsExactUnder(d: nat, m: nat)
    ensures ReaperSafeUnder(d, m) <==> d < m || d == 0
  {
    if d < m || d == 0 {
      forall courts, clock, steps | PossibleRun(Start(courts, clock), steps) && PromptRun(Start(courts, clock), steps, d, m)
        ensures MissesNothing(Run(Start(courts, clock), steps))
      {
        PromptIsOnTime(Start(courts, clock), steps, d, m);
        RunStays(Start(courts, clock), steps);
        StayingMisses(Run(Start(courts, clock), steps));
      }
    } else {
      var left := if m == 0 then 1 else m;
      var steps := LateMissRun(d, left);
      LessMargin(HOME, steps, d, left, m);
    }
  }
}
