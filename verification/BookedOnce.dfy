/**
 Exclusivity carried through the whole life of a booking: over every run of the joint
 machine in which no scan was cut short and no confirmation commits after its hold has
 ended, no two confirmed bookings share or overlap a slot.
 */
module BookedOnce {
  import opened Base
  import opened Lifecycle
  import opened LifecycleInvariant
  import opened LifecycleTheorems
  import B = Books
  import S = Slots
  import I = Inventory
  import II = InventoryInvariant

  /** The step commits no placement on a scan cut short and no confirmation after its hold has ended. */
  predicate OnTime(s: System, step: Step) {
    match step
    case Inventory(i) => II.Uncrowded(i)
    case SConfirm(c) => II.Timely(s.inventory, I.SConfirm(c.slot, c.hold, c.partner, c.environment, c.at))
    case SBookDirect(p, scan, _, _) => II.Uncrowded(I.SCommit(p, scan))
    case _ => true
  }

  predicate AllOnTime(run: seq<System>, steps: seq<Step>) {
    |run| == |steps| + 1 && forall n :: 0 <= n < |steps| ==> OnTime(run[n], steps[n])
  }

  lemma ConfirmExclusive(s: System, c: ConfirmCall)
    requires II.Inv(s.inventory) && OnTime(s, SConfirm(c)) && Confirm(s, c).Ok?
    ensures II.Inv(Confirm(s, c).value.state.inventory)
  {
    if FindRecord(s.records, c.partner, c.environment, c.key, ConfirmBooking) == None {
      var b := ConfirmNewIs(s, c);
      II.ConfirmKeeps(s.inventory, c.slot, c.hold, c.partner, c.environment, c.at);
    }
  }

  lemma CancelExclusive(s: System, c: CancelCall)
    requires II.Inv(s.inventory) && Cancel(s, c).Ok?
    ensures II.Inv(Cancel(s, c).value.state.inventory)
  {
    if FindRecord(s.records, c.partner, c.environment, c.key, CancelBooking(c.booking)) == None {
      var b, x := CancelNewIs(s, c);
      II.DisposeKeeps(s.inventory, b.slot, b.id, x.released);
    }
  }

  lemma BookDirectExclusive(s: System, p: I.Placement, scan: seq<S.Slot>, venue: Id, correlation: string)
    requires II.Inv(s.inventory) && p.request.DirectBooking? && I.Possible(s.inventory, I.SCommit(p, scan))
    requires II.Uncrowded(I.SCommit(p, scan)) && BookDirect(s, p, scan, venue, correlation).Ok?
    ensures II.Inv(BookDirect(s, p, scan, venue, correlation).value.inventory)
  {
    var b := BookDirectIs(s, p, scan, venue, correlation);
    II.CommitOpenKeeps(s.inventory, p, scan);
  }

  lemma ReleaseExclusive(s: I.State, slot: Id, booking: Id)
    requires II.Inv(s)
    ensures II.Inv(I.ReleaseDirect(s, slot, booking))
  {
    if slot in s.slots {
      II.RetireKeeps(s, slot);
    }
  }

  lemma StepExclusive(s: System, step: Step)
    requires II.Inv(s.inventory) && Possible(s, step) && OnTime(s, step)
    ensures II.Inv(After(s, step).inventory)
  {
    match step
    case Inventory(i) => II.StepKeeps(s.inventory, i);
    case Finances(c) =>
    case SConfirm(c) => if Confirm(s, c).Ok? { ConfirmExclusive(s, c); }
    case SCancel(c) => if Cancel(s, c).Ok? { CancelExclusive(s, c); }
    case SBookDirect(p, scan, venue, correlation) =>
      if BookDirect(s, p, scan, venue, correlation).Ok? { BookDirectExclusive(s, p, scan, venue, correlation); }
    case SCancelDirect(venue, id, percent, amount, correlation, at) =>
      if CancelDirect(s, venue, id, percent, amount, correlation, at).Ok? { ReleaseExclusive(s.inventory, s.bookings[id].slot, id); }
    case Sweep =>
  }

  lemma {:induction false} RunExclusive(run: seq<System>, steps: seq<Step>)
    requires Path(run, steps) && AllOnTime(run, steps) && II.Inv(run[0].inventory)
    ensures II.Inv(run[|steps|].inventory)
  {
    if steps != [] {
      var n := |steps| - 1;
      RunExclusive(run[..n + 1], steps[..n]);
      assert Leads(run[n], steps[n], run[n + 1]) && OnTime(run[n], steps[n]);
      StepExclusive(run[n], steps[n]);
    }
  }

  lemma BookedApart(slots: S.Table, bookings: Bookings, now: Time, next: Id, a: Id, b: Id)
    requires SlotsBooked(slots, bookings) && BookingIds(bookings, next) && II.Exclusive(slots, now)
    requires a in bookings && b in bookings && bookings[a].status == Confirmed && bookings[b].status == Confirmed
    ensures bookings[a].slot in slots && bookings[b].slot in slots
    ensures bookings[a].slot == bookings[b].slot || II.Collide(slots[bookings[a].slot], slots[bookings[b].slot]) ==> a == b
  {
    assert HasSlot(bookings[a], slots) && HasSlot(bookings[b], slots);
  }

  /** Two confirmed bookings, of partners or owners, whose slots are the same or collide are one booking. */
  lemma ConfirmedApart(courts: map<Id, nat>, clock: Time, run: seq<System>, steps: seq<Step>, a: Id, b: Id)
    requires Path(run, steps) && run[0] == Start(courts, clock) && AllOnTime(run, steps)
    requires var bookings := run[|steps|].bookings;
             a in bookings && b in bookings && bookings[a].status == Confirmed && bookings[b].status == Confirmed
    ensures var s := run[|steps|];
            var i, j := s.bookings[a].slot, s.bookings[b].slot;
            i in s.inventory.slots && j in s.inventory.slots
            && (i == j || II.Collide(s.inventory.slots[i], s.inventory.slots[j]) ==> a == b)
  {
    StartInv(courts, clock);
    RunContinues(run, steps);
    RunExclusive(run, steps);
    var s := run[|steps|];
    BookedApart(s.inventory.slots, s.bookings, s.inventory.clock, s.inventory.nextId, a, b);
  }
}
