/**
 What each operation on the slots promises its caller, said of the rows' own fields: when
 it goes through, what the rows it touches become, and that every other row stays.
 */
module SlotEffects {
  import opened Base
  import opened Slots
  import opened Inventory
  import opened InventoryInvariant
  import opened InventorySound
  import opened InventoryTheorems

  // ---------------------------------------------------------------------- what is scanned

  /** The rows of the court and environment that share some time with the interval. */
  predicate Shares(s: Slot, court: Id, environment: Environment, from: Time, to: Time) {
    s.court == court && s.environment == environment && s.startsAt < to && from < s.endsAt
  }

  /** A scan returns only rows that share time with the interval, each once and at most 200, and below 200 all of them. */
  lemma ScanReturns(scan: seq<Slot>, slots: Table, q: Interval)
    ensures ScanOf(scan, slots, q)
       <==> |scan| <= 200
            && (forall i, j :: 0 <= i < j < |scan| ==> scan[i].id != scan[j].id)
            && (forall k :: 0 <= k < |scan| ==> scan[k].id in slots && slots[scan[k].id] == scan[k])
            && (forall k :: 0 <= k < |scan| ==> Shares(scan[k], q.court, q.environment, q.startsAt, q.endsAt))
            && (|scan| < 200 ==> forall id :: id in slots && Shares(slots[id], q.court, q.environment, q.startsAt, q.endsAt) ==>
                  slots[id] in scan)
  {
    assert forall id :: id in slots ==> (Overlaps(slots[id], q) <==> Shares(slots[id], q.court, q.environment, q.startsAt, q.endsAt));
    assert forall k :: 0 <= k < |scan| ==> (Overlaps(scan[k], q) <==> Shares(scan[k], q.court, q.environment, q.startsAt, q.endsAt));
  }

  /** An open-time hold whose end has come. */
  predicate Lapsed(s: Slot, at: Time) {
    s.slotType == OpenTime && s.status == Held && s.holdExpiresAt.Some? && s.holdExpiresAt.value <= at
  }

  predicate LapsedAmong(scan: seq<Slot>, id: Id, at: Time) {
    exists k :: 0 <= k < |scan| && scan[k].id == id && Lapsed(scan[k], at)
  }

  /** A fixed slot that may be taken over: free, on a hold that has ended, or consumed by a hold that has. */
  predicate Free(s: Slot, scan: seq<Slot>, at: Time) {
    || s.status == Available
    || (s.status == Held && s.holdExpiresAt.Some? && s.holdExpiresAt.value <= at)
    || (s.status == Unavailable && s.consumedBy.Some? && LapsedAmong(scan, s.consumedBy.value, at))
  }

  /** What keeps an open-time placement out. */
  predicate InTheWay(s: Slot, scan: seq<Slot>, at: Time) {
    if s.slotType == OpenTime then s.status != Available && !Lapsed(s, at) else !Free(s, scan, at)
  }

  lemma StaleIsLapsed(scan: seq<Slot>, at: Time, id: Id)
    ensures id in StaleIds(scan, at) <==> LapsedAmong(scan, id, at)
  {
    if id in StaleIds(scan, at) {
      var s :| s in scan && StaleHold(s, at) && s.id == id;
      var k :| 0 <= k < |scan| && scan[k] == s;
    }
  }

  lemma BlocksIsInTheWay(s: Slot, scan: seq<Slot>, at: Time)
    ensures Blocks(s, at, OpenTime, StaleIds(scan, at)) <==> InTheWay(s, scan, at)
    ensures s.slotType == FixedSlot ==> (Consumable(s, at, StaleIds(scan, at)) <==> Free(s, scan, at))
    ensures Blocks(s, at, FixedSlot, StaleIds(scan, at)) <==> s.slotType == OpenTime && s.status != Available && !Lapsed(s, at)
  {
    if s.consumedBy.Some? {
      StaleIsLapsed(scan, at, s.consumedBy.value);
    }
  }

  // ------------------------------------------------------------------ placing a hold or booking

  /** When a placement may begin: the interval is whole, a hold lies ahead, an owner's booking lasts an hour; it then waits on what it read. */
  lemma BeginsWhen(s: State, request: Request, q: Interval, at: Time)
    ensures var valid := match request
                         case FixedHold(_, _, _) => false
                         case OpenHold(_, _, _) => at < q.startsAt < q.endsAt
                         case DirectBooking => q.endsAt >= q.startsAt + 3_600_000
                         case OpenBlock => q.startsAt < q.endsAt;
            if valid && q.court in s.courts
            then BeginOpen(s, request, q, at) == Ok(s.(placements := s.placements + {Placement(request, q, at, s.courts[q.court], s.slots)}))
            else BeginOpen(s, request, q, at).Err?
  {
  }

  /** A fixed slot may be asked for exactly while it lies ahead and has a price. */
  lemma BeginsFixedWhen(s: State, slot: Id, partner: Id, environment: Environment, ttl: nat, at: Time)
    ensures match BeginFixedHold(s, slot, partner, environment, ttl, at)
            case Ok(t) =>
              && slot in s.slots && s.slots[slot].slotType == FixedSlot && s.slots[slot].court in s.courts
              && at < s.slots[slot].startsAt && s.slots[slot].price.Some?
              && var row := s.slots[slot];
                 t == s.(placements := s.placements + {Placement(FixedHold(slot, partner, ttl), Interval(row.court, environment, row.startsAt, row.endsAt),
                                                                 at, s.courts[row.court], s.slots)})
            case Err(e) =>
              if slot !in s.slots || s.slots[slot].slotType == OpenTime || s.slots[slot].court !in s.courts then e == SlotNotFound
              else e == SlotNotAvailable && (at >= s.slots[slot].startsAt || s.slots[slot].price == None)
  {
  }

  predicate SameKind(a: Slot, q: Interval, slotType: SlotType) {
    a.slotType == slotType && a.court == q.court && a.environment == q.environment && a.startsAt == q.startsAt && a.endsAt == q.endsAt
  }

  predicate AsRead(s: State, p: Placement, id: Id) {
    id in s.slots && id in p.snapshot && s.slots[id] == p.snapshot[id]
  }

  /**
   An open-time placement commits exactly when its court is as it read it, no scanned row is
   in the way, no row of its kind has its very interval, and the fixed rows it scanned are
   as it read them; otherwise the first of these that fails is the answer.
   */
  lemma OpenCommitsWhen(s: State, p: Placement, scan: seq<Slot>)
    requires Sound(s) && p in s.placements && !p.request.FixedHold? && ScanOf(scan, p.snapshot, p.interval)
    ensures var error := match Commit(s, p, scan) case Ok(_) => None case Err(e) => Some(e);
            error == if s.courts[p.interval.court] != p.courtVersion then Some(InventoryVersionConflict)
                     else if exists k :: 0 <= k < |scan| && InTheWay(scan[k], scan, p.at) then Some(InventoryOverlap)
                     else if exists id :: id in s.slots && SameKind(s.slots[id], p.interval, OpenTime) then Some(DuplicateInterval)
                     else if exists k :: 0 <= k < |scan| && scan[k].slotType == FixedSlot && !AsRead(s, p, scan[k].id) then Some(WriteConflict)
                     else None
  {
    OpenPlacementCommits(s, p, scan);
    forall k | 0 <= k < |scan|
      ensures Blocks(scan[k], p.at, OpenTime, StaleIds(scan, p.at)) <==> InTheWay(scan[k], scan, p.at)
      ensures scan[k].slotType == FixedSlot && !InTheWay(scan[k], scan, p.at) ==> scan[k].id in ConsumableIds(scan, p.at)
    {
      BlocksIsInTheWay(scan[k], scan, p.at);
    }
    assert SomethingBlocks(scan, p.at, OpenTime) <==> exists k :: 0 <= k < |scan| && InTheWay(scan[k], scan, p.at);
    assert IntervalTaken(s.slots, p.interval, OpenTime) <==> exists id :: id in s.slots && SameKind(s.slots[id], p.interval, OpenTime);
    if AllUnchanged(s.slots, p.snapshot, ConsumableIds(scan, p.at)) && !SomethingBlocks(scan, p.at, OpenTime) {
      forall k | 0 <= k < |scan| && scan[k].slotType == FixedSlot
        ensures AsRead(s, p, scan[k].id)
      {
        assert Unchanged(s.slots, p.snapshot, scan[k].id);
      }
    }
    if forall k :: 0 <= k < |scan| && scan[k].slotType == FixedSlot ==> AsRead(s, p, scan[k].id) {
      forall id | id in ConsumableIds(scan, p.at)
        ensures Unchanged(s.slots, p.snapshot, id)
      {
        var r :| r in scan && Consumable(r, p.at, StaleIds(scan, p.at)) && r.id == id;
        var k :| 0 <= k < |scan| && scan[k] == r;
      }
    }
  }

  /** The row of a hold, an owner's booking or a block, and the identifier of the hold or booking on it. */
  predicate Placed(r: Slot, p: Placement, id: Id) {
    && r.id == id && r.slotType == OpenTime && r.version == 1 && r.consumedBy == None
    && r.court == p.interval.court && r.environment == p.interval.environment
    && r.startsAt == p.interval.startsAt && r.endsAt == p.interval.endsAt
    && match p.request
       case FixedHold(_, _, _) => false
       case OpenHold(partner, price, ttl) =>
         r.status == Held && r.holdId == Some(id + 1) && r.holdPartner == Some(partner) && r.price == Some(price)
         && r.holdExpiresAt == Some(if p.at + ttl <= r.startsAt then p.at + ttl else r.startsAt)
         && r.booking == None && r.source == FromBooking
       case DirectBooking =>
         r.status == Booked && r.booking == Some(id + 1) && r.holdId == None && r.holdPartner == None && r.holdExpiresAt == None
         && r.price == None && r.source == OwnerDashboard
       case OpenBlock =>
         r.status == Blocked && r.booking == None && r.holdId == None && r.holdPartner == None && r.holdExpiresAt == None
         && r.price == None && r.source == OwnerDashboard
  }

  /** What consuming, restoring, holding and booking never change. */
  predicate SameSlot(a: Slot, b: Slot) {
    && a.id == b.id && a.court == b.court && a.environment == b.environment && a.slotType == b.slotType
    && a.startsAt == b.startsAt && a.endsAt == b.endsAt && a.price == b.price && a.source == b.source
  }

  predicate TakenOver(before: Slot, after: Slot, consumer: Id) {
    && SameSlot(before, after) && after.status == Unavailable && after.consumedBy == Some(consumer)
    && after.holdId == None && after.holdPartner == None && after.holdExpiresAt == None
    && after.booking == before.booking && after.version == before.version + 1
  }

  predicate Scanned(scan: seq<Slot>, id: Id) {
    exists k :: 0 <= k < |scan| && scan[k].id == id && scan[k].slotType == FixedSlot
  }

  /** A committed open-time placement adds its row, takes over exactly the fixed rows it scanned, and bumps its court. */
  lemma OpenCommitWrites(s: State, p: Placement, scan: seq<Slot>)
    requires Sound(s) && p in s.placements && !p.request.FixedHold? && ScanOf(scan, p.snapshot, p.interval)
    requires Commit(s, p, scan).Ok?
    ensures var t := Commit(s, p, scan).value;
            && t.slots.Keys == s.slots.Keys + {s.nextId} && Placed(t.slots[s.nextId], p, s.nextId) && t.nextId == s.nextId + 2
            && (forall id :: id in s.slots ==> if Scanned(scan, id) then TakenOver(s.slots[id], t.slots[id], s.nextId) else t.slots[id] == s.slots[id])
            && t.courts == s.courts[p.interval.court := s.courts[p.interval.court] + 1]
            && t.clock == s.clock && t.placements == s.placements && t.readings == s.readings
  {
    CommitOpenIs(s, p, scan);
    var ids, stale := ConsumableIds(scan, p.at), StaleIds(scan, p.at);
    OffersMatch(p, scan, s.slots, s.nextId);
    forall id | id in s.slots
      ensures Scanned(scan, id) <==> ConsumeFilter(s.slots[id], p.interval, ids, stale, p.at)
    {
      OfferedIsScanned(scan, p.at, id);
      if Scanned(scan, id) {
        var k :| 0 <= k < |scan| && scan[k].id == id && scan[k].slotType == FixedSlot;
        assert !Blocks(scan[k], p.at, OpenTime, stale);
        assert id in ids;
      }
    }
  }

  lemma OfferedIsScanned(scan: seq<Slot>, at: Time, id: Id)
    ensures id in ConsumableIds(scan, at) ==> Scanned(scan, id)
  {
    if id in ConsumableIds(scan, at) {
      var r :| r in scan && Consumable(r, at, StaleIds(scan, at)) && r.id == id;
      var k :| 0 <= k < |scan| && scan[k] == r;
    }
  }

  /** A fixed slot in the way of a fixed hold: nothing but its own state and open-time rows over it. */
  predicate OpenOver(scan: seq<Slot>, slot: Id, at: Time) {
    exists k :: 0 <= k < |scan| && scan[k].id != slot && scan[k].slotType == OpenTime && scan[k].status != Available && !Lapsed(scan[k], at)
  }

  lemma OpenOverBlocks(scan: seq<Slot>, slot: Id, at: Time)
    ensures SomethingBlocks(Without(scan, Some(slot)), at, FixedSlot) <==> OpenOver(scan, slot, at)
  {
    var considered := Without(scan, Some(slot));
    WithoutMembers(scan, Some(slot));
    if SomethingBlocks(considered, at, FixedSlot) {
      var k :| 0 <= k < |considered| && Blocks(considered[k], at, FixedSlot, StaleIds(considered, at));
      BlocksIsInTheWay(considered[k], considered, at);
      assert considered[k] in considered;
      var m :| 0 <= m < |scan| && scan[m] == considered[k];
    }
    if OpenOver(scan, slot, at) {
      var k :| 0 <= k < |scan| && scan[k].id != slot && scan[k].slotType == OpenTime && scan[k].status != Available && !Lapsed(scan[k], at);
      assert scan[k] in considered;
      var m :| 0 <= m < |considered| && considered[m] == scan[k];
      BlocksIsInTheWay(considered[m], considered, at);
    }
  }

  /** The lapsed hold that consumes a fixed slot is scanned with it, and is not the slot itself. */
  predicate LapsedBut(scan: seq<Slot>, slot: Id, id: Id, at: Time) {
    exists k :: 0 <= k < |scan| && scan[k].id != slot && scan[k].id == id && Lapsed(scan[k], at)
  }

  lemma StaleBut(scan: seq<Slot>, slot: Id, at: Time, id: Id)
    ensures id in StaleIds(Without(scan, Some(slot)), at) <==> LapsedBut(scan, slot, id, at)
  {
    var considered := Without(scan, Some(slot));
    WithoutMembers(scan, Some(slot));
    StaleIsLapsed(considered, at, id);
    if LapsedAmong(considered, id, at) {
      var k :| 0 <= k < |considered| && considered[k].id == id && Lapsed(considered[k], at);
      assert considered[k] in considered;
      var m :| 0 <= m < |scan| && scan[m] == considered[k];
    }
    if LapsedBut(scan, slot, id, at) {
      var k :| 0 <= k < |scan| && scan[k].id != slot && scan[k].id == id && Lapsed(scan[k], at);
      assert scan[k] in considered;
      var m :| 0 <= m < |considered| && considered[m] == scan[k];
    }
  }

  predicate Claimable(r: Slot, scan: seq<Slot>, environment: Environment, at: Time) {
    && r.slotType == FixedSlot && r.environment == environment && r.booking == None
    && (r.status == Available
        || (r.status == Held && r.holdExpiresAt.Some? && r.holdExpiresAt.value <= at)
        || (r.status == Unavailable && r.consumedBy.Some? && LapsedBut(scan, r.id, r.consumedBy.value, at)))
  }

  /**
   A fixed hold commits exactly when its court is as read, no open-time row that stands
   covers the slot, and the slot as read was free of bookings and open, on a hold that has
   ended, or consumed by one, and is still as read.
   */
  lemma FixedCommitsWhen(s: State, p: Placement, scan: seq<Slot>)
    requires p.request.FixedHold? && p.interval.court in s.courts && Keyed(p.snapshot)
    ensures var error := match Commit(s, p, scan) case Ok(_) => None case Err(e) => Some(e);
            error == if s.courts[p.interval.court] != p.courtVersion then Some(InventoryVersionConflict)
                     else if OpenOver(scan, p.request.slot, p.at) then Some(InventoryOverlap)
                     else if p.request.slot !in p.snapshot || !Claimable(p.snapshot[p.request.slot], scan, p.interval.environment, p.at)
                       then Some(SlotNotAvailable)
                     else if !AsRead(s, p, p.request.slot) then Some(WriteConflict)
                     else None
  {
    OpenOverBlocks(scan, p.request.slot, p.at);
    if p.request.slot in p.snapshot && p.snapshot[p.request.slot].consumedBy.Some? {
      StaleBut(scan, p.request.slot, p.at, p.snapshot[p.request.slot].consumedBy.value);
    }
  }

  lemma FixedCommitWrites(s: State, p: Placement, scan: seq<Slot>)
    requires p.request.FixedHold? && Commit(s, p, scan).Ok?
    ensures var t, id := Commit(s, p, scan).value, p.request.slot;
            && id in s.slots && t.slots.Keys == s.slots.Keys && (forall k :: k in s.slots && k != id ==> t.slots[k] == s.slots[k])
            && var r := t.slots[id];
               && SameSlot(s.slots[id], r) && r.status == Held && r.holdId == Some(s.nextId) && r.holdPartner == Some(p.request.partner)
               && r.holdExpiresAt == Some(if p.at + p.request.ttl <= p.interval.startsAt then p.at + p.request.ttl else p.interval.startsAt)
               && r.booking == None && r.consumedBy == None && r.version == s.slots[id].version + 1
               && t == s.(slots := t.slots, courts := s.courts[p.interval.court := s.courts[p.interval.court] + 1], nextId := s.nextId + 1)
  {
  }

  // ----------------------------------------------------------- confirming and giving back

  /** A hold is confirmed exactly while the row carries it for that partner and its end lies after the clock reading. */
  lemma ConfirmsWhen(s: State, slot: Id, holdId: Id, partner: Id, environment: Environment, at: Time)
    ensures Confirm(s, slot, holdId, partner, environment, at).Ok?
       <==> slot in s.slots && s.slots[slot].status == Held && s.slots[slot].holdId == Some(holdId)
            && s.slots[slot].holdPartner == Some(partner) && s.slots[slot].environment == environment
            && s.slots[slot].holdExpiresAt.Some? && at < s.slots[slot].holdExpiresAt.value && s.slots[slot].booking == None
    ensures Confirm(s, slot, holdId, partner, environment, at).Ok? ==>
              var t := Confirm(s, slot, holdId, partner, environment, at).value;
              slot in t.slots && BookedRow(s.slots[slot], t.slots[slot], s.nextId)
              && t == s.(slots := s.slots[slot := t.slots[slot]], nextId := s.nextId + 1)
  {
  }

  predicate BookedRow(before: Slot, after: Slot, booking: Id) {
    && SameSlot(before, after) && after.status == Booked && after.booking == Some(booking) && after.holdId == None
    && after.holdPartner == None && after.holdExpiresAt == None && after.consumedBy == before.consumedBy && after.version == before.version + 1
  }

  /** A row given back: open or withdrawn, with nothing of its hold or booking left. */
  predicate GivenBack(before: Slot, after: Slot, status: Status) {
    && SameSlot(before, after) && after.status == status && after.booking == None && after.holdId == None
    && after.holdPartner == None && after.holdExpiresAt == None && after.consumedBy == before.consumedBy && after.version == before.version + 1
  }

  /** A row that was consumed and is open again. */
  predicate Restored(before: Slot, after: Slot) {
    && SameSlot(before, after) && after.status == Available && after.consumedBy == None && after.version == before.version + 1
    && after.booking == before.booking && after.holdId == before.holdId && after.holdPartner == before.holdPartner
    && after.holdExpiresAt == before.holdExpiresAt
  }

  /** The row `id` is gone, the rows of its court that it consumed are open again, and every other row is as it was. */
  predicate Removed(before: Table, after: Table, id: Id) {
    && id in before && after.Keys == before.Keys - {id}
    && forall k :: k in after ==>
         if before[k].court == before[id].court && before[k].consumedBy == Some(id) then Restored(before[k], after[k]) else after[k] == before[k]
  }

  lemma RetireRemoves(slots: Table, id: Id)
    requires id in slots
    ensures Removed(slots, Retire(slots, slots[id].court, id), id)
  {
  }

  /**
   A booked slot is given back exactly for its own booking. A released open-time slot that
   a booking created is removed; any other slot is open again if released, else withdrawn.
   */
  lemma DisposeLeaves(s: State, slot: Id, booking: Id, release: bool)
    ensures Dispose(s, slot, booking, release).Ok? <==> slot in s.slots && s.slots[slot].booking == Some(booking) && s.slots[slot].status == Booked
    ensures Dispose(s, slot, booking, release).Ok? ==>
              var t := Dispose(s, slot, booking, release).value;
              && t == s.(slots := t.slots)
              && if release && s.slots[slot].slotType == OpenTime && s.slots[slot].source == FromBooking then Removed(s.slots, t.slots, slot)
                 else slot in t.slots && GivenBack(s.slots[slot], t.slots[slot], if release then Available else Unavailable)
                      && t.slots == s.slots[slot := t.slots[slot]]
  {
    if slot in s.slots {
      RetireRemoves(s.slots, slot);
    }
  }

  /** The owner's slot is removed with its booking, or nothing happens when it is not booked by it. */
  lemma ReleaseDirectLeaves(s: State, slot: Id, booking: Id)
    ensures var t := ReleaseDirect(s, slot, booking);
            if slot in s.slots && s.slots[slot].booking == Some(booking) && s.slots[slot].status == Booked
            then t == s.(slots := t.slots) && Removed(s.slots, t.slots, slot) else t == s
  {
    if slot in s.slots {
      RetireRemoves(s.slots, slot);
    }
  }

  // ----------------------------------------------------------------- the owner's inventory

  lemma ReleaseBlockLeaves(s: State, slot: Id, version: nat)
    ensures ReleaseBlock(s, slot, version).Ok?
       <==> slot in s.slots && s.slots[slot].slotType == OpenTime && s.slots[slot].status == Blocked && s.slots[slot].version == version
    ensures ReleaseBlock(s, slot, version).Ok? ==>
              var t := ReleaseBlock(s, slot, version).value; t == s.(slots := t.slots) && Removed(s.slots, t.slots, slot)
  {
    if slot in s.slots {
      RetireRemoves(s.slots, slot);
    }
  }

  /** An open fixed slot can be blocked and a blocked one opened, each at the version that was read; nothing else of it changes. */
  lemma SetFixedLeaves(s: State, slot: Id, block: bool, version: nat)
    ensures SetFixed(s, slot, block, version).Ok?
       <==> slot in s.slots && s.slots[slot].slotType == FixedSlot && s.slots[slot].version == version
            && (if block then s.slots[slot].status == Available else s.slots[slot].status == Blocked)
    ensures SetFixed(s, slot, block, version).Ok? ==>
              var t := SetFixed(s, slot, block, version).value;
              && slot in t.slots && t == s.(slots := s.slots[slot := t.slots[slot]])
              && var before, r := s.slots[slot], t.slots[slot];
                 && SameSlot(before, r) && r.version == before.version + 1 && (r.status == Blocked <==> block) && (r.status == Available <==> !block)
                 && r.holdId == before.holdId && r.holdPartner == before.holdPartner && r.holdExpiresAt == before.holdExpiresAt
                 && r.booking == before.booking && r.consumedBy == before.consumedBy
  {
  }

  /** A fixed slot is added where the interval has none, open, at the given price and at version 1. */
  lemma AddFixedLeaves(s: State, q: Interval, price: Option<int>)
    ensures AddFixed(s, q, price).Ok?
       <==> q.startsAt < q.endsAt && q.court in s.courts && forall id :: id in s.slots ==> !SameKind(s.slots[id], q, FixedSlot)
    ensures AddFixed(s, q, price).Ok? ==>
              var t := AddFixed(s, q, price).value;
              && s.nextId in t.slots && t == s.(slots := s.slots[s.nextId := t.slots[s.nextId]], nextId := s.nextId + 1)
              && var r := t.slots[s.nextId];
                 && r.id == s.nextId && SameKind(r, q, FixedSlot) && r.price == price && r.status == Available && r.version == 1
                 && r.holdId == None && r.holdPartner == None && r.holdExpiresAt == None && r.booking == None && r.consumedBy == None
                 && r.source == SystemGenerated
  {
    assert IntervalTaken(s.slots, q, FixedSlot) <==> exists id :: id in s.slots && SameKind(s.slots[id], q, FixedSlot);
  }

  // -------------------------------------------------------------------------- the reaper

  /** What the reaper does to a row that is still as it read it; to any other it does nothing else than restore. */
  lemma ReleaseLeaves(slots: Table, c: Slot)
    requires c.id in slots && slots[c.id] == c && c.status == Held && (c.slotType == OpenTime ==> c.source == FromBooking)
    requires c.consumedBy == None
    ensures if c.slotType == OpenTime then Removed(slots, ReleaseExpired(slots, c), c.id) && OutcomeOf(slots, c) == OpenDeleted
            else c.id in ReleaseExpired(slots, c) && GivenBack(c, ReleaseExpired(slots, c)[c.id], Available)
                 && ReleaseExpired(slots, c) == slots[c.id := ReleaseExpired(slots, c)[c.id]] && OutcomeOf(slots, c) == FixedReleased
  {
    RetireIsRestoreThenDelete(slots, c.court, c.id);
    RetireRemoves(slots, c.id);
  }
}
