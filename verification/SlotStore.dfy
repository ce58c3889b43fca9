/**
 The slots and courts collections as the repository changes them: conditional updates in
 place, each proved to make exactly the change that `Inventory` specifies.
 */
module SlotStore {
  import opened Base
  import opened Slots
  import opened Inventory

  /** The rows an update has visited are written, those still to visit are as they were. */
  predicate Halfway(before: Table, slots: Table, left: set<Id>, consumer: Id, q: Interval, ids: set<Id>, stale: set<Id>,
                    now: Time) {
    && slots.Keys == before.Keys
    && (forall id :: id in slots && id in left ==> slots[id] == before[id])
    && (forall id :: id in slots && id !in left ==> slots[id] == ConsumeRow(before[id], consumer, q, ids, stale, now))
  }

  lemma NothingDone(slots: Table, consumer: Id, q: Interval, ids: set<Id>, stale: set<Id>, now: Time)
    ensures Halfway(slots, slots, slots.Keys, consumer, q, ids, stale, now)
    ensures ConsumedIds(slots, q, ids, stale, now) - slots.Keys == {}
  {
  }

  lemma OneMore(before: Table, slots: Table, left: set<Id>, id: Id, consumer: Id, q: Interval, ids: set<Id>,
                stale: set<Id>, now: Time)
    requires Halfway(before, slots, left, consumer, q, ids, stale, now) && id in left && id in slots
    ensures Halfway(before, slots[id := ConsumeRow(slots[id], consumer, q, ids, stale, now)], left - {id}, consumer, q, ids, stale, now)
    ensures var hit := ConsumedIds(before, q, ids, stale, now);
            |hit - (left - {id})| == |hit - left| + if ConsumeFilter(slots[id], q, ids, stale, now) then 1 else 0
  {
    var hit := ConsumedIds(before, q, ids, stale, now);
    assert hit - (left - {id}) == if id in hit then hit - left + {id} else hit - left;
  }

  lemma AllDone(before: Table, slots: Table, consumer: Id, q: Interval, ids: set<Id>, stale: set<Id>, now: Time)
    requires Halfway(before, slots, {}, consumer, q, ids, stale, now)
    ensures slots == ConsumeAll(before, consumer, q, ids, stale, now)
    ensures ConsumedIds(before, q, ids, stale, now) - {} == ConsumedIds(before, q, ids, stale, now)
  {
  }

  class Store {
    var slots: Table
    var courts: map<Id, nat>
    var nextId: Id

    ghost function View(clock: Time): (s: State)
      reads this
    {
      State(slots, courts, nextId, clock, {}, {})
    }

    constructor (initial: map<Id, nat>)
      ensures slots == map[] && courts == initial && nextId == 0
    {
      slots, courts, nextId := map[], initial, 0;
    }

    /** `lockCourt`: bump the court's version if it is still the one that was read. */
    method LockCourt(court: Id, version: nat) returns (locked: bool)
      modifies this`courts
      ensures locked <==> court in old(courts) && old(courts)[court] == version
      ensures courts == if locked then Bump(old(courts), court) else old(courts)
    {
      locked := court in courts && courts[court] == version;
      if locked {
        courts := courts[court := courts[court] + 1];
      }
    }

    /** `claimFixedHold`, on a row nobody has changed since the snapshot. */
    method ClaimFixedHold(p: Placement, stale: set<Id>) returns (error: Option<InventoryError>)
      requires p.request.FixedHold?
      modifies this`slots, this`nextId
      ensures var id := p.request.slot;
              if id !in p.snapshot || !ClaimFilter(p.snapshot[id], p.interval.environment, stale, p.at)
              then error == Some(SlotNotAvailable) && slots == old(slots) && nextId == old(nextId)
              else if !Unchanged(old(slots), p.snapshot, id)
              then error == Some(WriteConflict) && slots == old(slots) && nextId == old(nextId)
              else error == None && nextId == old(nextId) + 1
                   && slots == old(slots)[id := Claimed(old(slots)[id], old(nextId), p.request.partner,
                                                        Expiry(p.at, p.interval.startsAt, p.request.ttl))]
    {
      var id := p.request.slot;
      if id !in p.snapshot || !ClaimFilter(p.snapshot[id], p.interval.environment, stale, p.at) { return Some(SlotNotAvailable); }
      if !Unchanged(slots, p.snapshot, id) { return Some(WriteConflict); }
      slots := slots[id := slots[id].(
        status := Held, holdId := Some(nextId), holdPartner := Some(p.request.partner),
        holdExpiresAt := Some(Expiry(p.at, p.interval.startsAt, p.request.ttl)), consumedBy := None, version := slots[id].version + 1)];
      nextId := nextId + 1;
      return None;
    }

    /** The update of `consumeFixedSlots` and its count. */
    method ConsumeRows(consumer: Id, q: Interval, ids: set<Id>, stale: set<Id>, now: Time) returns (modified: nat)
      modifies this`slots
      ensures slots == ConsumeAll(old(slots), consumer, q, ids, stale, now)
      ensures modified == |ConsumedIds(old(slots), q, ids, stale, now)|
    {
      ghost var before := slots;
      modified := 0;
      var left := slots.Keys;
      NothingDone(slots, consumer, q, ids, stale, now);
      while left != {}
        invariant left <= slots.Keys && Halfway(before, slots, left, consumer, q, ids, stale, now)
        invariant modified == |ConsumedIds(before, q, ids, stale, now) - left|
        decreases left
      {
        var id :| id in left;
        OneMore(before, slots, left, id, consumer, q, ids, stale, now);
        if ConsumeFilter(slots[id], q, ids, stale, now) {
          modified := modified + 1;
        }
        slots := slots[id := ConsumeRow(slots[id], consumer, q, ids, stale, now)];
        left := left - {id};
      }
      AllDone(before, slots, consumer, q, ids, stale, now);
    }

    /** `consumeFixedSlots`: a short count takes the update back. */
    method ConsumeFixedSlots(consumer: Id, q: Interval, ids: set<Id>, stale: set<Id>,
                             now: Time) returns (consumed: bool)
      modifies this`slots
      ensures var r := Consume(old(slots), consumer, q, ids, stale, now);
              consumed == r.Some? && slots == if r.Some? then r.value else old(slots)
    {
      if ids == {} { return true; }
      var before := slots;
      var modified := ConsumeRows(consumer, q, ids, stale, now);
      consumed := modified == |ids|;
      if !consumed { slots := before; }
    }

    /** `restoreConsumedFixedSlots`. */
    method RestoreConsumedFixedSlots(court: Id, consumer: Id)
      modifies this`slots
      ensures slots == Restore(old(slots), court, consumer)
    {
      var left := slots.Keys;
      while left != {}
        invariant left <= old(slots).Keys && slots.Keys == old(slots).Keys
        invariant forall id :: id in slots ==>
                    slots[id] == if id in left then old(slots)[id] else RestoreRow(old(slots)[id], court, consumer)
        decreases left
      {
        var id :| id in left;
        left := left - {id};
        if slots[id].court == court && slots[id].consumedBy == Some(consumer) {
          slots := slots[id := slots[id].(status := Available, consumedBy := None, version := slots[id].version + 1)];
        }
      }
      assert slots == Restore(old(slots), court, consumer);
    }

    /** Restore what a slot consumed, then delete the slot. */
    method RetireSlot(court: Id, id: Id)
      modifies this`slots
      ensures slots == Retire(old(slots), court, id)
    {
      RetireIsRestoreThenDelete(slots, court, id);
      RestoreConsumedFixedSlots(court, id);
      slots := slots - {id};
    }

    /** The writes of an open-time placement after its lock: insert the row, consume the grid. */
    method InsertAndConsume(p: Placement, ids: set<Id>, stale: set<Id>) returns (consumed: bool)
      requires !p.request.FixedHold?
      modifies this`slots, this`nextId
      ensures var r := Consume(old(slots)[old(nextId) := OpenRow(p, old(nextId))], old(nextId), p.interval, ids, stale, p.at);
              consumed == r.Some? && slots == (if r.Some? then r.value else old(slots))
              && nextId == (if r.Some? then old(nextId) + 2 else old(nextId))
    {
      var before, id := slots, nextId;
      slots := slots[id := OpenRow(p, id)];
      consumed := ConsumeFixedSlots(id, p.interval, ids, stale, p.at);
      if consumed { nextId := id + 2; } else { slots := before; }
    }

    /** The commit of `hold`, `createDirectBooking` or an owner's block: lock, classify, write; an error undoes the lock. */
    method Place(p: Placement, scan: seq<Slot>, ghost clock: Time) returns (error: Option<InventoryError>)
      modifies this
      ensures var r := Commit(old(View(clock)), p, scan);
              if r.Ok? then error == None && View(clock) == r.value else error == Some(r.error) && View(clock) == old(View(clock))
    {
      var before := courts;
      var locked := LockCourt(p.interval.court, p.courtVersion);
      if !locked { return Some(InventoryVersionConflict); }
      var perspective := if p.request.FixedHold? then FixedSlot else OpenTime;
      var exclude := if p.request.FixedHold? then Some(p.request.slot) else None;
      var blocking, consumable, stale := ClassifyOverlap(scan, p.at, perspective, exclude);
      WithoutNone(scan);
      ClassifiedAs(Without(scan, exclude), p.at, perspective);
      if blocking != [] {
        error := Some(InventoryOverlap);
      } else if p.request.FixedHold? {
        error := ClaimFixedHold(p, IdsOf(stale));
      } else {
        error := PlaceOpen(p, IdsOf(consumable), IdsOf(stale));
      }
      if error.Some? { courts := before; }
    }

    /** The part of an open-time placement after classification. */
    method PlaceOpen(p: Placement, ids: set<Id>, stale: set<Id>) returns (error: Option<InventoryError>)
      requires !p.request.FixedHold?
      modifies this`slots, this`nextId
      ensures var r := Consume(old(slots)[old(nextId) := OpenRow(p, old(nextId))], old(nextId), p.interval, ids, stale, p.at);
              if IntervalTaken(old(slots), p.interval, OpenTime) then error == Some(DuplicateInterval) && slots == old(slots) && nextId == old(nextId)
              else if !AllUnchanged(old(slots), p.snapshot, ids) then error == Some(WriteConflict) && slots == old(slots) && nextId == old(nextId)
              else if r == None then error == Some(InventoryConsumptionConflict) && slots == old(slots) && nextId == old(nextId)
              else error == None && slots == r.value && nextId == old(nextId) + 2
    {
      if IntervalTaken(slots, p.interval, OpenTime) { return Some(DuplicateInterval); }
      if !AllUnchanged(slots, p.snapshot, ids) { return Some(WriteConflict); }
      var consumed := InsertAndConsume(p, ids, stale);
      return if consumed then None else Some(InventoryConsumptionConflict);
    }

    /** `confirmSlot`. */
    method ConfirmSlot(slot: Id, holdId: Id, partner: Id, environment: Environment, now: Time,
                       ghost clock: Time) returns (error: Option<InventoryError>)
      modifies this`slots, this`nextId
      ensures var r := Confirm(old(View(clock)), slot, holdId, partner, environment, now);
              if r.Ok? then error == None && View(clock) == r.value else error == Some(r.error) && View(clock) == old(View(clock))
    {
      if slot !in slots { return Some(HoldNotActive); }
      var row := slots[slot];
      if row.status != Held || row.holdId != Some(holdId) || row.holdPartner != Some(partner) || row.environment != environment
         || row.holdExpiresAt == None || row.holdExpiresAt.value <= now || row.booking.Some?
      {
        return Some(HoldNotActive);
      }
      slots := slots[slot := row.(status := Booked, booking := Some(nextId), holdId := None, holdPartner := None,
                                  holdExpiresAt := None, version := row.version + 1)];
      nextId := nextId + 1;
      return None;
    }

    /** `disposeSlot`. */
    method DisposeSlot(slot: Id, booking: Id, release: bool, ghost clock: Time) returns (error: Option<InventoryError>)
      modifies this`slots
      ensures var r := Dispose(old(View(clock)), slot, booking, release);
              if r.Ok? then error == None && View(clock) == r.value else error == Some(r.error) && View(clock) == old(View(clock))
    {
      if slot !in slots || slots[slot].booking != Some(booking) || slots[slot].status != Booked { return Some(SlotDispositionConflict); }
      var row := slots[slot];
      if release && row.slotType == OpenTime && row.source == FromBooking {
        RetireSlot(row.court, slot);
      } else {
        slots := slots[slot := row.(status := if release then Available else Unavailable, booking := None, holdId := None,
                                    holdPartner := None, holdExpiresAt := None, version := row.version + 1)];
      }
      return None;
    }

    /** `releaseDirectSlot`. */
    method ReleaseDirectSlot(slot: Id, booking: Id, ghost clock: Time)
      modifies this`slots
      ensures View(clock) == ReleaseDirect(old(View(clock)), slot, booking)
    {
      if slot in slots && slots[slot].booking == Some(booking) && slots[slot].status == Booked {
        RetireSlot(slots[slot].court, slot);
      }
    }

    /** `releaseExpiredHold`: for an open-time candidate the restore comes before the delete that may miss. */
    method ReleaseExpiredHold(c: Slot) returns (outcome: Outcome)
      modifies this`slots
      ensures slots == ReleaseExpired(old(slots), c) && outcome == OutcomeOf(old(slots), c)
    {
      if c.slotType == OpenTime && c.source == FromBooking {
        RestoreConsumedFixedSlots(c.court, c.id);
        if !Matches(slots, c) { return Skipped; }
        slots := slots - {c.id};
        return OpenDeleted;
      }
      if !Matches(slots, c) { return Skipped; }
      slots := slots[c.id := slots[c.id].(status := Available, booking := None, holdId := None, holdPartner := None,
                                          holdExpiresAt := None, version := slots[c.id].version + 1)];
      return FixedReleased;
    }
  }

  /** What the classifier returns, in the terms of `Commit`. */
  lemma ClassifiedAs(considered: seq<Slot>, now: Time, perspective: SlotType)
    ensures var ids := StaleIds(considered, now);
            && (Pick(Blocking, considered, now, perspective, ids) != [] <==> SomethingBlocks(considered, now, perspective))
            && IdsOf(Pick(StaleOnes, considered, now, perspective, ids)) == ids
            && (perspective == OpenTime ==> IdsOf(Pick(ConsumableOnes, considered, now, perspective, ids)) == ConsumableIds(considered, now))
  {
    var ids := StaleIds(considered, now);
    PickMembers(Blocking, considered, now, perspective, ids);
    PickMembers(StaleOnes, considered, now, perspective, ids);
    PickMembers(ConsumableOnes, considered, now, perspective, ids);
    var blocking := Pick(Blocking, considered, now, perspective, ids);
    if blocking != [] {
      assert blocking[0] in considered;
      var k :| 0 <= k < |considered| && considered[k] == blocking[0];
    }
    if SomethingBlocks(considered, now, perspective) {
      var k :| 0 <= k < |considered| && Blocks(considered[k], now, perspective, ids);
      assert considered[k] in blocking;
    }
  }
}
