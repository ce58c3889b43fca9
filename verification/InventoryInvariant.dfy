/**
 What steps on the inventory keep, with placements and reaper batches under way, as long as
 no scan is cut short and no confirmation commits after its hold has ended: no court is
 occupied twice, no consumed slot loses its consumer, and what was read earlier is still
 good for what it will be used for.
 */
module InventoryInvariant {
  import opened Base
  import opened Slots
  import opened Inventory

  // ------------------------------------------------------------------- the invariant

  /** How the fields of a row belong together. */
  predicate Shape(s: Slot) {
    && s.startsAt < s.endsAt
    && (s.status == Held <==> s.holdExpiresAt.Some?)
    && (s.status == Held <==> s.holdId.Some?)
    && (s.status == Booked <==> s.booking.Some?)
    && (s.consumedBy.Some? ==> s.slotType == FixedSlot && s.status == Unavailable)
    && (s.slotType == OpenTime && s.status == Held ==> s.source == FromBooking)
  }

  /** The identifiers a row mentions were all given out before `next`. */
  predicate Known(s: Slot, next: Id) {
    s.id < next && (s.holdId.Some? ==> s.holdId.value < next) && (s.booking.Some? ==> s.booking.value < next)
  }

  predicate TableOk(slots: Table, next: Id) {
    forall id :: id in slots ==> slots[id].id == id && Shape(slots[id]) && Known(slots[id], next)
  }

  /** Rows of one court and environment that overlap in time, at least one of them open-time. */
  predicate Collide(a: Slot, b: Slot) {
    a.court == b.court && a.environment == b.environment && a.startsAt < b.endsAt && b.startsAt < a.endsAt
    && (a.slotType == OpenTime || b.slotType == OpenTime)
  }

  predicate Linked(slots: Table, s: Slot) {
    s.consumedBy.Some? ==>
      s.consumedBy.value in slots && slots[s.consumedBy.value].slotType == OpenTime && Collide(slots[s.consumedBy.value], s)
  }

  /** A consumed slot's consumer exists, is open-time and overlaps it. */
  predicate Links(slots: Table) {
    forall id :: id in slots ==> Linked(slots, slots[id])
  }

  /** No two colliding rows are both occupied. */
  predicate Exclusive(slots: Table, now: Time) {
    forall i, j :: i in slots && j in slots && i != j && Collide(slots[i], slots[j]) ==>
      !(Occupies(slots[i], now) && Occupies(slots[j], now))
  }

  /** What never changes about a row. */
  predicate SamePlace(a: Slot, b: Slot) {
    a.id == b.id && a.court == b.court && a.environment == b.environment && a.slotType == b.slotType
    && a.startsAt == b.startsAt && a.endsAt == b.endsAt && a.source == b.source
  }

  /** Whatever occupies the court now already occupied it in the snapshot, at the placement's own time. */
  predicate Foresaw(p: Placement, slots: Table, now: Time) {
    forall id :: id in slots && slots[id].court == p.interval.court && Occupies(slots[id], now) ==>
      id in p.snapshot && SamePlace(p.snapshot[id], slots[id]) && Occupies(p.snapshot[id], p.at)
  }

  predicate RequestOk(p: Placement) {
    if p.request.FixedHold? then
      p.request.slot in p.snapshot
      && var row := p.snapshot[p.request.slot];
         row.slotType == FixedSlot && p.interval == Interval(row.court, p.interval.environment, row.startsAt, row.endsAt)
    else p.interval.startsAt < p.interval.endsAt
  }

  predicate PlacementOk(p: Placement, slots: Table, courts: map<Id, nat>, now: Time) {
    && RequestOk(p) && Keyed(p.snapshot) && p.at <= now
    && p.interval.court in courts && p.courtVersion <= courts[p.interval.court]
    && (p.courtVersion == courts[p.interval.court] ==> Foresaw(p, slots, now))
  }

  /** A candidate is as it was read, or its row has moved on; an expired open-time hold can only have been deleted. */
  predicate CandidateOk(c: Slot, slots: Table, now: Time, next: Id) {
    && ExpiredHold(c, now) && Shape(c) && c.id < next
    && (c.id in slots ==> slots[c.id] == c || (slots[c.id].version > c.version && c.slotType == FixedSlot))
  }

  predicate ReadingOk(r: Reading, slots: Table, now: Time, next: Id) {
    forall k :: 0 <= k < |r.candidates| ==> CandidateOk(r.candidates[k], slots, now, next)
  }

  predicate PlacementsOk(placements: set<Placement>, slots: Table, courts: map<Id, nat>, now: Time) {
    forall p :: p in placements ==> PlacementOk(p, slots, courts, now)
  }

  predicate ReadingsOk(readings: set<Reading>, slots: Table, now: Time, next: Id) {
    forall r :: r in readings ==> ReadingOk(r, slots, now, next)
  }

  predicate Inv(s: State) {
    && TableOk(s.slots, s.nextId) && Links(s.slots) && Exclusive(s.slots, s.clock)
    && PlacementsOk(s.placements, s.slots, s.courts, s.clock)
    && ReadingsOk(s.readings, s.slots, s.clock, s.nextId)
  }

  // ------------------------------------------------- what a step may do to the rows

  /** Rows stay, move to a higher version or go; new rows take new identifiers. */
  predicate Evolves(a: Table, b: Table, next: Id) {
    && (forall id :: id in a && id in b ==> b[id] == a[id] || b[id].version > a[id].version)
    && (forall id :: id in b ==> id in a || id >= next)
  }

  /** An expired open-time hold is left alone until it is deleted. */
  predicate StaleStay(a: Table, b: Table, now: Time) {
    forall id :: id in a && id in b && StaleHold(a[id], now) ==> b[id] == a[id]
  }

  /** Outside one court, nothing becomes occupied. */
  predicate Frees(a: Table, b: Table, now: Time, except: Option<Id>) {
    forall id :: id in b && Occupies(b[id], now) && except != Some(b[id].court) ==>
      id in a && SamePlace(a[id], b[id]) && Occupies(a[id], now)
  }

  predicate Quiet(a: Table, b: Table, now: Time, next: Id) {
    Evolves(a, b, next) && StaleStay(a, b, now) && Frees(a, b, now, None)
  }

  lemma ExclusiveKept(a: Table, b: Table, now: Time)
    requires Exclusive(a, now) && Frees(a, b, now, None)
    ensures Exclusive(b, now)
  {
  }

  lemma CandidateKept(c: Slot, a: Table, b: Table, now: Time, next: Id, after: Id)
    requires CandidateOk(c, a, now, next) && Evolves(a, b, next) && StaleStay(a, b, now) && next <= after
    ensures CandidateOk(c, b, now, after)
  {
  }

  lemma ReadingsKept(readings: set<Reading>, a: Table, b: Table, now: Time, next: Id, after: Id)
    requires ReadingsOk(readings, a, now, next) && Evolves(a, b, next) && StaleStay(a, b, now) && next <= after
    ensures ReadingsOk(readings, b, now, after)
  {
    forall r | r in readings
      ensures ReadingOk(r, b, now, after)
    {
      forall k | 0 <= k < |r.candidates|
        ensures CandidateOk(r.candidates[k], b, now, after)
      {
        CandidateKept(r.candidates[k], a, b, now, next, after);
      }
    }
  }

  lemma ForesawKept(p: Placement, a: Table, b: Table, now: Time, except: Option<Id>)
    requires Foresaw(p, a, now) && Frees(a, b, now, except) && except != Some(p.interval.court)
    ensures Foresaw(p, b, now)
  {
  }

  lemma PlacementsKept(placements: set<Placement>, a: Table, b: Table, courts: map<Id, nat>, now: Time)
    requires PlacementsOk(placements, a, courts, now) && Frees(a, b, now, None)
    ensures PlacementsOk(placements, b, courts, now)
  {
    forall p | p in placements
      ensures PlacementOk(p, b, courts, now)
    {
      if p.courtVersion == courts[p.interval.court] {
        ForesawKept(p, a, b, now, None);
      }
    }
  }

  /** A commit on one court invalidates the other placements there and does not touch the rest. */
  lemma PlacementsBumped(placements: set<Placement>, a: Table, b: Table, courts: map<Id, nat>, now: Time, court: Id)
    requires PlacementsOk(placements, a, courts, now) && Frees(a, b, now, Some(court)) && court in courts
    ensures PlacementsOk(placements, b, Bump(courts, court), now)
  {
    forall p | p in placements
      ensures PlacementOk(p, b, Bump(courts, court), now)
    {
      if p.interval.court != court && p.courtVersion == courts[p.interval.court] {
        ForesawKept(p, a, b, now, Some(court));
      }
    }
  }

  /** A change that occupies nothing new keeps the invariant. */
  lemma QuietKeeps(s: State, slots: Table, next: Id)
    requires Inv(s) && TableOk(slots, next) && Links(slots)
    requires Quiet(s.slots, slots, s.clock, s.nextId) && s.nextId <= next
    ensures Inv(s.(slots := slots, nextId := next))
  {
    ExclusiveKept(s.slots, slots, s.clock);
    PlacementsKept(s.placements, s.slots, slots, s.courts, s.clock);
    ReadingsKept(s.readings, s.slots, slots, s.clock, s.nextId, next);
  }

  /** A change that occupies something new, under its court's lock and without a collision, keeps it too. */
  lemma CommitKeeps(s: State, slots: Table, next: Id, court: Id)
    requires Inv(s) && TableOk(slots, next) && Links(slots) && s.nextId <= next && court in s.courts
    requires Evolves(s.slots, slots, s.nextId) && StaleStay(s.slots, slots, s.clock)
    requires Frees(s.slots, slots, s.clock, Some(court)) && Exclusive(slots, s.clock)
    ensures Inv(s.(slots := slots, courts := Bump(s.courts, court), nextId := next))
  {
    PlacementsBumped(s.placements, s.slots, slots, s.courts, s.clock, court);
    ReadingsKept(s.readings, s.slots, slots, s.clock, s.nextId, next);
  }

  // ----------------------------------------------------------- revising one row

  /** A row that keeps its place, occupies nothing new and ends no expired open-time hold. */
  predicate Revision(s: Slot, r: Slot, now: Time) {
    SamePlace(s, r) && Shape(r) && r.version > s.version && r.consumedBy == None
    && (Occupies(r, now) ==> Occupies(s, now)) && !StaleHold(s, now)
  }

  lemma LinksRevised(slots: Table, id: Id, row: Slot)
    requires Links(slots) && id in slots && SamePlace(slots[id], row) && row.consumedBy == None
    ensures Links(slots[id := row])
  {
    var after := slots[id := row];
    forall k | k in after
      ensures Linked(after, after[k])
    {
      assert k != id ==> Linked(slots, slots[k]);
    }
  }

  lemma RevisionKeeps(s: State, id: Id, row: Slot, next: Id)
    requires Inv(s) && id in s.slots && Revision(s.slots[id], row, s.clock) && s.nextId <= next && Known(row, next)
    ensures Inv(s.(slots := s.slots[id := row], nextId := next))
  {
    LinksRevised(s.slots, id, row);
    QuietKeeps(s, s.slots[id := row], next);
  }

  /** A confirmation that commits before its hold ends, whenever it read the clock. */
  lemma ConfirmKeeps(s: State, slot: Id, holdId: Id, partner: Id, environment: Environment, at: Time)
    requires Inv(s) && Confirm(s, slot, holdId, partner, environment, at).Ok?
    requires s.slots[slot].holdExpiresAt.value > s.clock
    ensures Inv(Confirm(s, slot, holdId, partner, environment, at).value)
  {
    RevisionKeeps(s, slot, BookedFrom(s.slots[slot], s.nextId), s.nextId + 1);
  }

  lemma SetFixedKeeps(s: State, slot: Id, block: bool, version: nat)
    requires Inv(s) && SetFixed(s, slot, block, version).Ok?
    ensures Inv(SetFixed(s, slot, block, version).value)
  {
    RevisionKeeps(s, slot, s.slots[slot].(status := if block then Blocked else Available, version := version + 1), s.nextId);
  }

  // ------------------------------------------------------------------ retiring a row

  lemma RetireTable(slots: Table, court: Id, id: Id, next: Id)
    requires TableOk(slots, next)
    ensures TableOk(Retire(slots, court, id), next)
  {
  }

  /** Everything that pointed at the retired row is freed, so no link dangles. */
  lemma RetireLinks(slots: Table, id: Id)
    requires Links(slots) && id in slots
    ensures Links(Retire(slots, slots[id].court, id))
  {
    var after := Retire(slots, slots[id].court, id);
    forall k | k in after
      ensures Linked(after, after[k])
    {
      assert Linked(slots, slots[k]);
    }
  }

  lemma RetireQuiet(slots: Table, court: Id, id: Id, now: Time, next: Id)
    requires TableOk(slots, next)
    ensures Quiet(slots, Retire(slots, court, id), now, next)
  {
  }

  lemma RetireKeeps(s: State, id: Id)
    requires Inv(s) && id in s.slots
    ensures Inv(s.(slots := Retire(s.slots, s.slots[id].court, id)))
  {
    var court := s.slots[id].court;
    RetireTable(s.slots, court, id, s.nextId);
    RetireLinks(s.slots, id);
    RetireQuiet(s.slots, court, id, s.clock, s.nextId);
    QuietKeeps(s, Retire(s.slots, court, id), s.nextId);
  }

  lemma DisposeKeeps(s: State, slot: Id, booking: Id, release: bool)
    requires Inv(s) && Dispose(s, slot, booking, release).Ok?
    ensures Inv(Dispose(s, slot, booking, release).value)
  {
    var row := s.slots[slot];
    if release && row.slotType == OpenTime && row.source == FromBooking {
      RetireKeeps(s, slot);
    } else {
      RevisionKeeps(s, slot, ReleasedAs(row, if release then Available else Unavailable), s.nextId);
    }
  }

  lemma AddFixedKeeps(s: State, q: Interval, price: Option<int>)
    requires Inv(s) && AddFixed(s, q, price).Ok?
    ensures Inv(AddFixed(s, q, price).value)
  {
    var after := AddFixed(s, q, price).value.slots;
    forall k | k in after
      ensures Linked(after, after[k])
    {
      assert k != s.nextId ==> Linked(s.slots, s.slots[k]);
    }
    QuietKeeps(s, after, s.nextId + 1);
  }

  // ---------------------------------------------------------------------- the reaper

  /** Nothing points at an identifier that is not there. */
  lemma NothingPoints(slots: Table, court: Id, id: Id)
    requires Links(slots) && id !in slots
    ensures Restore(slots, court, id) == slots
  {
    forall k | k in slots
      ensures RestoreRow(slots[k], court, id) == slots[k]
    {
      assert Linked(slots, slots[k]);
    }
  }

  /**
   What the reaper does with a candidate: it restores and deletes, or frees, the very row
   it read, still expired; or its compare-and-set misses and it has restored nothing.
   */
  lemma ReleaseIs(slots: Table, c: Slot, now: Time, next: Id)
    requires TableOk(slots, next) && Links(slots) && CandidateOk(c, slots, now, next)
    ensures OutcomeOf(slots, c) == Skipped <==> c.id !in slots || slots[c.id] != c
    ensures OutcomeOf(slots, c) == Skipped ==> ReleaseExpired(slots, c) == slots
    ensures OutcomeOf(slots, c) == OpenDeleted ==> c.slotType == OpenTime && ReleaseExpired(slots, c) == Retire(slots, c.court, c.id)
    ensures OutcomeOf(slots, c) == FixedReleased ==> c.slotType == FixedSlot && ReleaseExpired(slots, c) == slots[c.id := ReleasedAs(c, Available)]
  {
    if c.slotType == OpenTime {
      RetireIsRestoreThenDelete(slots, c.court, c.id);
      if c.id !in slots {
        NothingPoints(slots, c.court, c.id);
      }
    }
  }

  lemma ReleaseExpiredKeeps(s: State, c: Slot)
    requires Inv(s) && CandidateOk(c, s.slots, s.clock, s.nextId)
    ensures Inv(s.(slots := ReleaseExpired(s.slots, c)))
  {
    ReleaseIs(s.slots, c, s.clock, s.nextId);
    match OutcomeOf(s.slots, c)
    case Skipped =>
    case OpenDeleted => RetireKeeps(s, c.id);
    case FixedReleased => RevisionKeeps(s, c.id, ReleasedAs(c, Available), s.nextId);
  }

  lemma {:induction false} ReapKeeps(s: State, r: Reading, n: nat)
    requires Inv(s) && r in s.readings && n <= |r.candidates|
    ensures Inv(s.(slots := ReleaseAll(s.slots, r.candidates[..n])))
  {
    if n > 0 {
      ReapKeeps(s, r, n - 1);
      assert r.candidates[..n][..n - 1] == r.candidates[..n - 1];
      var before := s.(slots := ReleaseAll(s.slots, r.candidates[..n - 1]));
      assert ReadingOk(r, before.slots, before.clock, before.nextId);
      ReleaseExpiredKeeps(before, r.candidates[n - 1]);
    }
  }

  // ---------------------------------------------------------------------- placements

  /** A complete scan of the snapshot finds whatever occupies the interval now, and it blocks. */
  lemma OccupantSeen(p: Placement, scan: seq<Slot>, exclude: Option<Id>, slots: Table, now: Time, perspective: SlotType,
                     id: Id)
    requires Foresaw(p, slots, now) && Complete(scan, p.snapshot, p.interval)
    requires Keyed(p.snapshot) && exclude != Some(id)
    requires id in slots && Overlaps(slots[id], p.interval)
    requires (perspective == OpenTime || slots[id].slotType == OpenTime)
    requires Occupies(slots[id], now)
    ensures SomethingBlocks(Without(scan, exclude), p.at, perspective)
  {
    var was, considered := p.snapshot[id], Without(scan, exclude);
    WithoutMembers(scan, exclude);
    assert was in scan;
    var k :| 0 <= k < |considered| && considered[k] == was;
    OccupantBlocks(was, p.at, StaleIds(considered, p.at));
  }

  /** One row newly occupied where nothing collides with it. */
  lemma ExclusiveWith(slots: Table, now: Time, id: Id, row: Slot)
    requires Exclusive(slots, now)
    requires forall k :: k in slots && k != id && Collide(slots[k], row) ==> !Occupies(slots[k], now)
    ensures Exclusive(slots[id := row], now)
  {
  }

  lemma ClaimExclusive(p: Placement, scan: seq<Slot>, slots: Table, now: Time, id: Id, row: Slot)
    requires Exclusive(slots, now) && Foresaw(p, slots, now) && Keyed(p.snapshot)
    requires id in slots && SamePlace(slots[id], row) && row.slotType == FixedSlot
    requires p.interval == Interval(row.court, row.environment, row.startsAt, row.endsAt)
    requires forall k :: k in slots ==> slots[k].id == k
    requires Complete(scan, p.snapshot, p.interval) && !SomethingBlocks(Without(scan, Some(id)), p.at, FixedSlot)
    ensures Exclusive(slots[id := row], now)
  {
    forall k | k in slots && k != id && Collide(slots[k], row)
      ensures !Occupies(slots[k], now)
    {
      if Occupies(slots[k], now) {
        OccupantSeen(p, scan, Some(id), slots, now, FixedSlot, k);
      }
    }
    ExclusiveWith(slots, now, id, row);
  }

  lemma ClaimOccupies(slots: Table, now: Time, next: Id, id: Id, row: Slot)
    requires TableOk(slots, next) && id in slots && SamePlace(slots[id], row) && row.slotType == FixedSlot
    requires Shape(row) && Known(row, next + 1) && row.version > slots[id].version
    ensures TableOk(slots[id := row], next + 1)
    ensures Evolves(slots, slots[id := row], next) && StaleStay(slots, slots[id := row], now)
    ensures Frees(slots, slots[id := row], now, Some(row.court))
  {
  }

  lemma CommitFixedHoldKeeps(s: State, p: Placement, scan: seq<Slot>)
    requires Inv(s) && p in s.placements && p.request.FixedHold? && Commit(s, p, scan).Ok?
    requires ScanOf(scan, p.snapshot, p.interval) && Complete(scan, p.snapshot, p.interval)
    ensures Inv(Commit(s, p, scan).value)
  {
    var id := p.request.slot;
    var row := Claimed(s.slots[id], s.nextId, p.request.partner, Expiry(p.at, p.interval.startsAt, p.request.ttl));
    assert PlacementOk(p, s.slots, s.courts, s.clock);
    ClaimExclusive(p, scan, s.slots, s.clock, id, row);
    ClaimOccupies(s.slots, s.clock, s.nextId, id, row);
    LinksRevised(s.slots, id, row);
    CommitKeeps(s, s.slots[id := row], s.nextId + 1, p.interval.court);
  }

  /** The rows consuming takes lie in the interval. */
  predicate Takeable(slots: Table, q: Interval, ids: set<Id>, stale: set<Id>, at: Time) {
    forall id :: id in slots && ConsumeFilter(slots[id], q, ids, stale, at) ==> Overlaps(slots[id], q)
  }

  lemma ConsumeTable(slots: Table, consumer: Id, q: Interval, ids: set<Id>, stale: set<Id>, at: Time, next: Id)
    requires TableOk(slots, next)
    ensures TableOk(ConsumeAll(slots, consumer, q, ids, stale, at), next)
  {
  }

  lemma ConsumeLinks(slots: Table, consumer: Id, q: Interval, ids: set<Id>, stale: set<Id>, at: Time)
    requires Links(slots) && Takeable(slots, q, ids, stale, at)
    requires consumer in slots && slots[consumer].slotType == OpenTime
    requires q == Interval(slots[consumer].court, slots[consumer].environment, slots[consumer].startsAt, slots[consumer].endsAt)
    ensures Links(ConsumeAll(slots, consumer, q, ids, stale, at))
  {
    var after := ConsumeAll(slots, consumer, q, ids, stale, at);
    forall k | k in after
      ensures Linked(after, after[k])
    {
      assert Linked(slots, slots[k]);
    }
  }

  lemma ConsumeQuiet(slots: Table, consumer: Id, q: Interval, ids: set<Id>, stale: set<Id>, at: Time, now: Time,
                     next: Id)
    ensures Quiet(slots, ConsumeAll(slots, consumer, q, ids, stale, at), now, next)
  {
  }

  /** A committed consumption wrote every row its filter matches. */
  lemma ConsumeIs(slots: Table, consumer: Id, q: Interval, ids: set<Id>, stale: set<Id>, at: Time)
    requires Consume(slots, consumer, q, ids, stale, at).Some?
    ensures Consume(slots, consumer, q, ids, stale, at).value == ConsumeAll(slots, consumer, q, ids, stale, at)
  {
  }

  /** An open-time row of the placement's interval, ready to be inserted. */
  predicate Insertable(p: Placement, row: Slot, id: Id) {
    && row.id == id && Shape(row) && Known(row, id + 2) && row.slotType == OpenTime && row.consumedBy == None
    && p.interval == Interval(row.court, row.environment, row.startsAt, row.endsAt)
  }

  lemma OpenRowInsertable(p: Placement, id: Id)
    requires RequestOk(p) && !p.request.FixedHold?
    ensures Insertable(p, OpenRow(p, id), id)
  {
  }

  lemma LinksInserted(slots: Table, id: Id, row: Slot)
    requires Links(slots) && id !in slots && row.consumedBy == None
    ensures Links(slots[id := row])
  {
    var after := slots[id := row];
    forall k | k in after
      ensures Linked(after, after[k])
    {
      assert k != id ==> Linked(slots, slots[k]);
    }
  }

  lemma InsertExclusive(p: Placement, scan: seq<Slot>, slots: Table, now: Time, row: Slot, id: Id)
    requires Exclusive(slots, now) && Foresaw(p, slots, now) && Keyed(p.snapshot) && Insertable(p, row, id)
    requires Complete(scan, p.snapshot, p.interval) && !SomethingBlocks(scan, p.at, OpenTime)
    ensures Exclusive(slots[id := row], now)
  {
    WithoutNone(scan);
    forall k | k in slots && k != id && Collide(slots[k], row)
      ensures !Occupies(slots[k], now)
    {
      if Occupies(slots[k], now) {
        OccupantSeen(p, scan, None, slots, now, OpenTime, k);
      }
    }
    ExclusiveWith(slots, now, id, row);
  }

  /** The change an open-time commit makes before it consumes anything, and what consuming adds to it. */
  predicate Occupying(a: Table, b: Table, now: Time, next: Id, court: Id) {
    Evolves(a, b, next) && StaleStay(a, b, now) && Frees(a, b, now, Some(court))
  }

  lemma InsertOccupies(slots: Table, now: Time, next: Id, row: Slot)
    requires TableOk(slots, next)
    ensures Occupying(slots, slots[next := row], now, next, row.court)
  {
  }

  lemma OccupyingThenQuiet(a: Table, b: Table, c: Table, now: Time, next: Id, court: Id, after: Id)
    requires Occupying(a, b, now, next, court) && Quiet(b, c, now, after) && b.Keys == c.Keys
    ensures Occupying(a, c, now, next, court)
  {
  }

  /** The rows an unchanged snapshot offers for consumption lie in the interval. */
  lemma ScanTakeable(p: Placement, scan: seq<Slot>, slots: Table, id: Id, row: Slot, stale: set<Id>)
    requires ScanOf(scan, p.snapshot, p.interval) && AllUnchanged(slots, p.snapshot, ConsumableIds(scan, p.at))
    requires row.slotType == OpenTime && id !in slots && row.id == id
    requires forall k :: k in slots ==> slots[k].id == k
    ensures Takeable(slots[id := row], p.interval, ConsumableIds(scan, p.at), stale, p.at)
  {
    var ids, inserted := ConsumableIds(scan, p.at), slots[id := row];
    forall k | k in inserted && ConsumeFilter(inserted[k], p.interval, ids, stale, p.at)
      ensures Overlaps(inserted[k], p.interval)
    {
      assert Unchanged(slots, p.snapshot, k);
      var m :| 0 <= m < |scan| && scan[m].id == k;
    }
  }

  /** Inserting an open-time row and consuming the grid under it. */
  lemma InsertAndConsume(s: State, p: Placement, row: Slot, ids: set<Id>, stale: set<Id>)
    requires Inv(s) && p.interval.court in s.courts && Insertable(p, row, s.nextId)
    requires Takeable(s.slots[s.nextId := row], p.interval, ids, stale, p.at)
    requires Exclusive(s.slots[s.nextId := row], s.clock)
    ensures Inv(s.(slots := ConsumeAll(s.slots[s.nextId := row], s.nextId, p.interval, ids, stale, p.at),
                   courts := Bump(s.courts, p.interval.court), nextId := s.nextId + 2))
  {
    var id, q, next := s.nextId, p.interval, s.nextId + 2;
    var inserted := s.slots[id := row];
    var after := ConsumeAll(inserted, id, q, ids, stale, p.at);
    LinksInserted(s.slots, id, row);
    InsertOccupies(s.slots, s.clock, id, row);
    ConsumeTable(inserted, id, q, ids, stale, p.at, next);
    ConsumeLinks(inserted, id, q, ids, stale, p.at);
    ConsumeQuiet(inserted, id, q, ids, stale, p.at, s.clock, next);
    OccupyingThenQuiet(s.slots, inserted, after, s.clock, id, q.court, next);
    ExclusiveKept(inserted, after, s.clock);
    CommitKeeps(s, after, next, q.court);
  }

  /** What a committed open-time placement wrote. */
  lemma CommitOpenIs(s: State, p: Placement, scan: seq<Slot>)
    requires !p.request.FixedHold? && Commit(s, p, scan).Ok?
    ensures var ids, stale := ConsumableIds(scan, p.at), StaleIds(scan, p.at);
            && p.interval.court in s.courts && s.courts[p.interval.court] == p.courtVersion
            && !SomethingBlocks(scan, p.at, OpenTime) && AllUnchanged(s.slots, p.snapshot, ids)
            && Commit(s, p, scan).value
               == s.(slots := ConsumeAll(s.slots[s.nextId := OpenRow(p, s.nextId)], s.nextId, p.interval, ids, stale, p.at),
                     courts := Bump(s.courts, p.interval.court), nextId := s.nextId + 2)
  {
    ConsumeIs(s.slots[s.nextId := OpenRow(p, s.nextId)], s.nextId, p.interval, ConsumableIds(scan, p.at), StaleIds(scan, p.at), p.at);
  }

  lemma CommitOpenKeeps(s: State, p: Placement, scan: seq<Slot>)
    requires Inv(s) && p in s.placements && !p.request.FixedHold? && Commit(s, p, scan).Ok?
    requires ScanOf(scan, p.snapshot, p.interval) && Complete(scan, p.snapshot, p.interval)
    ensures Inv(Commit(s, p, scan).value)
  {
    CommitOpenIs(s, p, scan);
    var row := OpenRow(p, s.nextId);
    OpenRowInsertable(p, s.nextId);
    InsertExclusive(p, scan, s.slots, s.clock, row, s.nextId);
    ScanTakeable(p, scan, s.slots, s.nextId, row, StaleIds(scan, p.at));
    InsertAndConsume(s, p, row, ConsumableIds(scan, p.at), StaleIds(scan, p.at));
  }

  // ----------------------------------------------------------------- time and reading

  lemma TickKeeps(s: State, to: Time)
    requires Inv(s) && s.clock <= to
    ensures Inv(s.(clock := to))
  {
  }

  lemma BeginKeeps(s: State, p: Placement)
    requires Inv(s) && RequestOk(p) && p.snapshot == s.slots && p.at <= s.clock
    requires p.interval.court in s.courts && p.courtVersion == s.courts[p.interval.court]
    ensures Inv(s.(placements := s.placements + {p}))
  {
  }

  lemma ReadKeeps(s: State, r: Reading)
    requires Inv(s) && Possible(s, SRead(r))
    ensures Inv(s.(readings := s.readings + {r}))
  {
  }

  // -------------------------------------------------------------------------- every run

  /** No committed placement scanned more rows than the limit lets it see. */
  predicate Uncrowded(step: Step) {
    step.SCommit? ==> Complete(step.scan, step.placement.snapshot, step.placement.interval)
  }

  /** A confirmation that goes through commits before its hold has ended. */
  predicate Timely(s: State, step: Step) {
    step.SConfirm? && Confirmable(s, step.slot, step.holdId, step.partner, step.environment, step.at) ==>
      s.slots[step.slot].holdExpiresAt.value > s.clock
  }

  lemma StepKeeps(s: State, step: Step)
    requires Inv(s) && Possible(s, step) && Uncrowded(step) && Timely(s, step)
    ensures Inv(After(s, step))
  {
    if Execute(s, step).Ok? {
      match step
      case Tick(to) => TickKeeps(s, to);
      case SBeginFixedHold(slot, partner, environment, ttl, at) =>
        var row := s.slots[slot];
        BeginKeeps(s, Placement(FixedHold(slot, partner, ttl), Interval(row.court, environment, row.startsAt, row.endsAt),
                                at, s.courts[row.court], s.slots));
      case SBeginOpen(request, q, at) => BeginKeeps(s, Placement(request, q, at, s.courts[q.court], s.slots));
      case SCommit(p, scan) =>
        if p.request.FixedHold? { CommitFixedHoldKeeps(s, p, scan); } else { CommitOpenKeeps(s, p, scan); }
      case SConfirm(slot, holdId, partner, environment, at) => ConfirmKeeps(s, slot, holdId, partner, environment, at);
      case SDispose(slot, booking, release) => DisposeKeeps(s, slot, booking, release);
      case SReleaseDirect(slot, booking) =>
        if ReleaseDirect(s, slot, booking) != s { RetireKeeps(s, slot); }
      case SReleaseBlock(slot, version) => RetireKeeps(s, slot);
      case SSetFixed(slot, block, version) => SetFixedKeeps(s, slot, block, version);
      case SAddFixed(q, price) => AddFixedKeeps(s, q, price);
      case SRead(r) => ReadKeeps(s, r);
      case SReap(r) =>
        ReapKeeps(s, r, |r.candidates|);
        assert r.candidates[..|r.candidates|] == r.candidates;
    }
  }
}
