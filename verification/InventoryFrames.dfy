/**
 What inventory steps leave alone: booked slots belong to the steps that book and cancel,
 and a hold's identifier is given out once.
 */
module InventoryFrames {
  import opened Base
  import opened Slots
  import opened Inventory
  import opened InventoryInvariant
  import opened InventorySound

  /** The booked rows are the same in both tables, apart from the row `but`. */
  predicate BookedSame(a: Table, b: Table, but: Option<Id>) {
    && (forall id :: id in a && a[id].status == Booked && Some(id) != but ==> id in b && b[id] == a[id])
    && (forall id :: id in b && b[id].status == Booked && Some(id) != but ==> id in a && a[id] == b[id])
  }

  /** No two rows carry the same hold. */
  predicate HoldsDistinct(slots: Table) {
    forall i, j :: i in slots && j in slots && i != j && slots[i].holdId.Some? ==> slots[i].holdId != slots[j].holdId
  }

  predicate HoldKept(a: Table, b: Table, id: Id) {
    id in a && id in b && a[id].holdId == b[id].holdId
  }

  predicate NewHold(s: Slot, next: Id) {
    s.holdId.Some? && s.holdId.value >= next
  }

  /** Every hold of `b` is a hold of `a` on the same row, or a new one, of which there is at most one. */
  predicate HoldsFrom(a: Table, b: Table, next: Id) {
    && (forall id :: id in b && b[id].holdId.Some? ==> HoldKept(a, b, id) || b[id].holdId.value >= next)
    && (forall i, j :: i in b && j in b && NewHold(b[i], next) && NewHold(b[j], next) ==> i == j)
  }

  /** No new holds at all. */
  predicate HoldsKept(a: Table, b: Table) {
    forall id :: id in b && b[id].holdId.Some? ==> HoldKept(a, b, id)
  }

  lemma KeptIsFrom(a: Table, b: Table, next: Id)
    requires HoldsKept(a, b) && forall id :: id in a ==> Known(a[id], next)
    ensures HoldsFrom(a, b, next)
  {
  }

  /** A hold that no row carries comes back never. */
  predicate HoldGone(slots: Table, hold: Id) {
    forall id :: id in slots ==> slots[id].holdId != Some(hold)
  }

  lemma RetireFrame(slots: Table, court: Id, id: Id, next: Id)
    requires TableOk(slots, next)
    ensures BookedSame(slots, Retire(slots, court, id), Some(id)) && HoldsKept(slots, Retire(slots, court, id))
    ensures id in slots && slots[id].status != Booked ==> BookedSame(slots, Retire(slots, court, id), None)
  {
  }

  lemma ReviseFrame(slots: Table, id: Id, row: Slot)
    requires id in slots && row.holdId == None
    ensures BookedSame(slots, slots[id := row], Some(id)) && HoldsKept(slots, slots[id := row])
    ensures slots[id].status != Booked && row.status != Booked ==> BookedSame(slots, slots[id := row], None)
  {
  }

  lemma FrameTransitive(a: Table, b: Table, c: Table)
    requires BookedSame(a, b, None) && BookedSame(b, c, None) && HoldsKept(a, b) && HoldsKept(b, c)
    ensures BookedSame(a, c, None) && HoldsKept(a, c)
  {
  }

  lemma ReleaseFrame(slots: Table, c: Slot, now: Time, next: Id)
    requires TableOk(slots, next) && CandidateRead(c, slots, now, next)
    ensures BookedSame(slots, ReleaseExpired(slots, c), None) && HoldsKept(slots, ReleaseExpired(slots, c))
  {
    ReleaseIsSound(slots, c, now, next);
    match OutcomeOf(slots, c)
    case Skipped =>
    case OpenDeleted => RetireFrame(slots, c.court, c.id, next);
    case FixedReleased => ReviseFrame(slots, c.id, ReleasedAs(c, Available));
  }

  lemma {:induction false} ReapFrame(s: State, r: Reading, n: nat)
    requires Sound(s) && r in s.readings && n <= |r.candidates|
    ensures BookedSame(s.slots, ReleaseAll(s.slots, r.candidates[..n]), None)
    ensures HoldsKept(s.slots, ReleaseAll(s.slots, r.candidates[..n]))
  {
    if n > 0 {
      ReapFrame(s, r, n - 1);
      ReapKeepsSound(s, r, n - 1);
      assert r.candidates[..n][..n - 1] == r.candidates[..n - 1];
      var before := ReleaseAll(s.slots, r.candidates[..n - 1]);
      assert ReadingSound(r, before, s.clock, s.nextId);
      ReleaseFrame(before, r.candidates[n - 1], s.clock, s.nextId);
      FrameTransitive(s.slots, before, ReleaseExpired(before, r.candidates[n - 1]));
    }
  }

  lemma InsertFrame(slots: Table, id: Id, row: Slot, q: Interval, ids: set<Id>, stale: set<Id>, at: Time, next: Id)
    requires TableOk(slots, next) && id == next && row.id == id && row.slotType == OpenTime
    requires row.holdId.Some? ==> row.holdId.value >= next
    ensures var after := ConsumeAll(slots[id := row], id, q, ids, stale, at);
            && HoldsFrom(slots, after, next)
            && BookedSame(slots, after, Some(id)) && id in after && after[id] == row
  {
  }

  lemma CommitFrame(s: State, p: Placement, scan: seq<Slot>)
    requires Sound(s) && Commit(s, p, scan).Ok?
    ensures var after := Commit(s, p, scan).value;
            && HoldsFrom(s.slots, after.slots, s.nextId) && s.nextId <= after.nextId
            && BookedSame(s.slots, after.slots, if p.request.FixedHold? then None else Some(s.nextId))
            && (!p.request.FixedHold? ==> s.nextId in after.slots && after.slots[s.nextId] == OpenRow(p, s.nextId))
  {
    if !p.request.FixedHold? {
      CommitOpenIs(s, p, scan);
      InsertFrame(s.slots, s.nextId, OpenRow(p, s.nextId), p.interval, ConsumableIds(scan, p.at), StaleIds(scan, p.at), p.at, s.nextId);
    } else {
      ClaimFrame(s.slots, p.request.slot, s.nextId, p.request.partner, Expiry(p.at, p.interval.startsAt, p.request.ttl));
    }
  }

  lemma ClaimFrame(slots: Table, id: Id, next: Id, partner: Id, expiresAt: Time)
    requires TableOk(slots, next) && id in slots && slots[id].status != Booked
    ensures HoldsFrom(slots, slots[id := Claimed(slots[id], next, partner, expiresAt)], next)
    ensures BookedSame(slots, slots[id := Claimed(slots[id], next, partner, expiresAt)], None)
  {
  }

  lemma AddFrame(s: State, q: Interval, price: Option<int>)
    requires TableOk(s.slots, s.nextId) && AddFixed(s, q, price).Ok?
    ensures var after := AddFixed(s, q, price).value;
            BookedSame(s.slots, after.slots, None) && HoldsFrom(s.slots, after.slots, s.nextId) && s.nextId <= after.nextId
  {
  }

  /** Steps that neither book a slot nor cancel a booking. */
  predicate Neutral(step: Step) {
    !step.SConfirm? && !step.SDispose? && !step.SReleaseDirect? && !(step.SCommit? && step.placement.request.DirectBooking?)
  }

  /** Such steps leave the booked slots as they are and give out new holds only under new identifiers. */
  lemma NeutralFrame(s: State, step: Step)
    requires Sound(s) && Possible(s, step) && Neutral(step) && Execute(s, step).Ok?
    ensures var after := Execute(s, step).value;
            BookedSame(s.slots, after.slots, None) && HoldsFrom(s.slots, after.slots, s.nextId) && s.nextId <= after.nextId
  {
    var after := Execute(s, step).value;
    match step
    case SCommit(p, scan) => CommitFrame(s, p, scan);
    case SReleaseBlock(slot, version) =>
      RetireFrame(s.slots, s.slots[slot].court, slot, s.nextId);
      KeptIsFrom(s.slots, after.slots, s.nextId);
    case SSetFixed(slot, block, version) =>
      ReviseFrame(s.slots, slot, s.slots[slot].(status := if block then Blocked else Available, version := version + 1));
      KeptIsFrom(s.slots, after.slots, s.nextId);
    case SReap(r) =>
      ReapFrame(s, r, |r.candidates|);
      assert r.candidates[..|r.candidates|] == r.candidates;
      KeptIsFrom(s.slots, after.slots, s.nextId);
    case SAddFixed(q, price) => AddFrame(s, q, price);
    case _ => KeptIsFrom(s.slots, after.slots, s.nextId);
  }
}
