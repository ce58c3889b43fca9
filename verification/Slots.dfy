/**
 The slots collection: which slots overlap an interval, what blocks a writer, what it may
 consume, and how consuming and restoring the fixed grid change the rows.
 */
module Slots {
  import opened Base

  datatype SlotType = FixedSlot | OpenTime

  datatype Status = Available | Held | Booked | Blocked | Unavailable

  datatype Source = SystemGenerated | OwnerDashboard | FromBooking

  datatype Slot = Slot(
    id: Id,
    court: Id,
    environment: Environment,
    slotType: SlotType,
    startsAt: Time,
    endsAt: Time,
    price: Option<int>,
    status: Status,
    holdId: Option<Id>,
    holdPartner: Option<Id>,
    holdExpiresAt: Option<Time>,
    source: Source,
    booking: Option<Id>,
    consumedBy: Option<Id>,
    version: nat
  )

  type Table = map<Id, Slot>

  // -------------------------------------------------------------------- overlap

  datatype Interval = Interval(court: Id, environment: Environment, startsAt: Time, endsAt: Time)

  predicate Overlaps(s: Slot, q: Interval) {
    s.court == q.court && s.environment == q.environment && s.startsAt < q.endsAt && s.endsAt > q.startsAt
  }

  /** `isLiveHold`. */
  predicate LiveHold(s: Slot, now: Time) {
    s.status == Held && (s.holdExpiresAt == None || s.holdExpiresAt.value > now)
  }

  predicate StaleHold(s: Slot, now: Time) {
    s.slotType == OpenTime && s.status == Held && !LiveHold(s, now)
  }

  /** A fixed slot that an open-time writer may take over. */
  predicate Consumable(s: Slot, now: Time, stale: set<Id>) {
    s.slotType == FixedSlot
    && (s.status == Available
        || (s.status == Held && !LiveHold(s, now))
        || (s.status == Unavailable && s.consumedBy.Some? && s.consumedBy.value in stale))
  }

  predicate Blocks(s: Slot, now: Time, perspective: SlotType, stale: set<Id>) {
    if s.slotType == OpenTime then s.status != Available && !StaleHold(s, now)
    else perspective == OpenTime && !Consumable(s, now, stale)
  }

  /** The three lists of a classification. */
  datatype Class = Blocking | ConsumableOnes | StaleOnes

  predicate Belongs(c: Class, s: Slot, now: Time, perspective: SlotType, stale: set<Id>) {
    match c
    case Blocking => Blocks(s, now, perspective, stale)
    case ConsumableOnes => perspective == OpenTime && Consumable(s, now, stale)
    case StaleOnes => StaleHold(s, now)
  }

  function Pick(c: Class, slots: seq<Slot>, now: Time, perspective: SlotType, stale: set<Id>): seq<Slot> {
    if slots == [] then []
    else
      var rest := Pick(c, slots[..|slots| - 1], now, perspective, stale);
      if Belongs(c, slots[|slots| - 1], now, perspective, stale) then rest + [slots[|slots| - 1]] else rest
  }

  function StaleIds(slots: seq<Slot>, now: Time): set<Id> {
    set s | s in slots && StaleHold(s, now) :: s.id
  }

  function Without(slots: seq<Slot>, exclude: Option<Id>): seq<Slot> {
    if slots == [] then []
    else
      var rest := Without(slots[..|slots| - 1], exclude);
      if exclude == Some(slots[|slots| - 1].id) then rest else rest + [slots[|slots| - 1]]
  }

  lemma {:induction false} PickMembers(c: Class, slots: seq<Slot>, now: Time, perspective: SlotType, stale: set<Id>)
    ensures forall s :: s in Pick(c, slots, now, perspective, stale) <==> s in slots && Belongs(c, s, now, perspective, stale)
  {
    if slots != [] {
      PickMembers(c, slots[..|slots| - 1], now, perspective, stale);
      assert slots == slots[..|slots| - 1] + [slots[|slots| - 1]];
    }
  }

  lemma {:induction false} WithoutMembers(slots: seq<Slot>, exclude: Option<Id>)
    ensures forall s :: s in Without(slots, exclude) <==> s in slots && exclude != Some(s.id)
  {
    if slots != [] {
      WithoutMembers(slots[..|slots| - 1], exclude);
      assert slots == slots[..|slots| - 1] + [slots[|slots| - 1]];
    }
  }

  /**
   An open-time writer meets every row in exactly one role, whatever the row's state, unless
   it is an open-time row left AVAILABLE; whoever claims a fixed slot meets open-time rows only.
   */
  lemma OneRoleEach(s: Slot, now: Time, stale: set<Id>)
    ensures var blocks, consumes, steals := Belongs(Blocking, s, now, OpenTime, stale),
              Belongs(ConsumableOnes, s, now, OpenTime, stale), Belongs(StaleOnes, s, now, OpenTime, stale);
            && !(blocks && consumes) && !(blocks && steals) && !(consumes && steals)
            && (blocks || consumes || steals <==> !(s.slotType == OpenTime && s.status == Available))
    ensures s.slotType == FixedSlot ==> forall c :: !Belongs(c, s, now, FixedSlot, stale)
    ensures s.slotType == OpenTime ==> forall c, p, q :: Belongs(c, s, now, p, stale) == Belongs(c, s, now, q, {})
  {
  }

  /** `classifyOverlap`. */
  method ClassifyOverlap(slots: seq<Slot>, now: Time, perspective: SlotType, exclude: Option<Id>)
    returns (blocking: seq<Slot>, consumable: seq<Slot>, stale: seq<Slot>)
    ensures var considered := Without(slots, exclude);
            var ids := StaleIds(considered, now);
            && blocking == Pick(Blocking, considered, now, perspective, ids)
            && consumable == Pick(ConsumableOnes, considered, now, perspective, ids)
            && stale == Pick(StaleOnes, considered, now, perspective, ids)
  {
    var considered := Exclude(slots, exclude);
    var ids := StaleConsumers(considered, now);
    blocking, consumable, stale := [], [], [];
    for k := 0 to |considered|
      invariant blocking == Pick(Blocking, considered[..k], now, perspective, ids)
      invariant consumable == Pick(ConsumableOnes, considered[..k], now, perspective, ids)
      invariant stale == Pick(StaleOnes, considered[..k], now, perspective, ids)
    {
      assert considered[..k + 1][..k] == considered[..k];
      var slot := considered[k];
      if slot.slotType == OpenTime {
        if slot.status == Available {
        } else if slot.status == Held {
          if LiveHold(slot, now) { blocking := blocking + [slot]; } else { stale := stale + [slot]; }
        } else {
          blocking := blocking + [slot];
        }
      } else if perspective == FixedSlot {
      } else if slot.status == Available {
        consumable := consumable + [slot];
      } else if slot.status == Held {
        if LiveHold(slot, now) { blocking := blocking + [slot]; } else { consumable := consumable + [slot]; }
      } else if slot.status == Unavailable && slot.consumedBy.Some? && slot.consumedBy.value in ids {
        consumable := consumable + [slot];
      } else {
        blocking := blocking + [slot];
      }
    }
    assert considered[..|considered|] == considered;
  }

  method Exclude(slots: seq<Slot>, exclude: Option<Id>) returns (considered: seq<Slot>)
    ensures considered == Without(slots, exclude)
  {
    if exclude == None {
      WithoutNone(slots);
      return slots;
    }
    considered := [];
    for k := 0 to |slots|
      invariant considered == Without(slots[..k], exclude)
    {
      assert slots[..k + 1][..k] == slots[..k];
      if slots[k].id != exclude.value { considered := considered + [slots[k]]; }
    }
    assert slots[..|slots|] == slots;
  }

  /** The set of expired open-time holds among the rows considered. */
  method StaleConsumers(considered: seq<Slot>, now: Time) returns (ids: set<Id>)
    ensures ids == StaleIds(considered, now)
  {
    ids := {};
    for k := 0 to |considered|
      invariant ids == StaleIds(considered[..k], now)
    {
      assert considered[..k + 1] == considered[..k] + [considered[k]];
      if considered[k].slotType == OpenTime && considered[k].status == Held && !LiveHold(considered[k], now) {
        ids := ids + {considered[k].id};
      }
    }
    assert considered[..|considered|] == considered;
  }

  lemma {:induction false} WithoutNone(slots: seq<Slot>)
    ensures Without(slots, None) == slots
  {
    if slots != [] {
      WithoutNone(slots[..|slots| - 1]);
      assert slots == slots[..|slots| - 1] + [slots[|slots| - 1]];
    }
  }

  // ------------------------------------------------------------------------ scanning

  const OVERLAP_SCAN_LIMIT := 200

  function OverlapIds(slots: Table, q: Interval): set<Id> {
    set id | id in slots && Overlaps(slots[id], q)
  }

  predicate DistinctSlots(scan: seq<Slot>) {
    forall i, j :: 0 <= i < j < |scan| ==> scan[i].id != scan[j].id
  }

  /** Every row of a collection is stored under its own identifier. */
  predicate Keyed(slots: Table) {
    forall id :: id in slots ==> slots[id].id == id
  }

  /** What `queryOverlappingSlots` may return: overlapping rows, all of them unless the limit cuts it short. */
  predicate ScanOf(scan: seq<Slot>, slots: Table, q: Interval) {
    && DistinctSlots(scan) && |scan| <= OVERLAP_SCAN_LIMIT
    && (forall k :: 0 <= k < |scan| ==> scan[k].id in slots && slots[scan[k].id] == scan[k] && Overlaps(scan[k], q))
    && (|scan| < OVERLAP_SCAN_LIMIT ==> Complete(scan, slots, q))
  }

  predicate Complete(scan: seq<Slot>, slots: Table, q: Interval) {
    forall id :: id in slots && Overlaps(slots[id], q) ==> slots[id] in scan
  }

  function IdsOf(scan: seq<Slot>): set<Id> {
    set s | s in scan :: s.id
  }

  lemma {:induction false} IdsCount(scan: seq<Slot>)
    requires DistinctSlots(scan)
    ensures |IdsOf(scan)| == |scan|
  {
    if scan == [] {
      assert IdsOf(scan) == {};
    } else {
      var n := |scan| - 1;
      IdsCount(scan[..n]);
      assert scan == scan[..n] + [scan[n]];
      assert IdsOf(scan) == IdsOf(scan[..n]) + {scan[n].id};
    }
  }

  lemma SubsetOfSameSize<T>(a: set<T>, b: set<T>)
    requires a <= b && |b| <= |a|
    ensures a == b
  {
    assert b == a + (b - a);
    assert |b| == |a| + |b - a|;
  }

  /** Up to the limit, a scan sees every overlapping row. */
  lemma ScanComplete(scan: seq<Slot>, slots: Table, q: Interval)
    requires Keyed(slots) && ScanOf(scan, slots, q) && |OverlapIds(slots, q)| <= OVERLAP_SCAN_LIMIT
    ensures Complete(scan, slots, q)
  {
    if |scan| == OVERLAP_SCAN_LIMIT {
      IdsCount(scan);
      SubsetOfSameSize(IdsOf(scan), OverlapIds(slots, q));
      forall id | id in slots && Overlaps(slots[id], q)
        ensures slots[id] in scan
      {
        assert id in IdsOf(scan);
        var k :| 0 <= k < |scan| && scan[k].id == id;
      }
    }
  }

  /** A slot someone is entitled to: what must never be sold over. */
  predicate Occupies(s: Slot, now: Time) {
    if s.slotType == OpenTime then s.status != Available && !StaleHold(s, now)
    else s.status == Booked || LiveHold(s, now)
  }

  predicate SeesOccupant(scan: seq<Slot>, now: Time) {
    exists k :: 0 <= k < |scan| && Occupies(scan[k], now)
  }

  function IdleIds(slots: Table, q: Interval, now: Time): set<Id> {
    set id | id in slots && Overlaps(slots[id], q) && !Occupies(slots[id], now)
  }

  /** Some rows of the collection, as a scan lists them. */
  ghost function Listed(slots: Table, ids: set<Id>, n: nat): (scan: seq<Slot>)
    requires n <= |ids| && forall id :: id in ids ==> id in slots
    ensures |scan| == n
    ensures forall k :: 0 <= k < n ==> scan[k] in slots.Values && exists id :: id in ids && scan[k] == slots[id]
    ensures Keyed(slots) ==> DistinctSlots(scan)
  {
    if n == 0 then []
    else
      var id :| id in ids;
      [slots[id]] + Listed(slots, ids - {id}, n - 1)
  }

  lemma IdleScan(slots: Table, q: Interval, now: Time) returns (scan: seq<Slot>)
    requires Keyed(slots) && |IdleIds(slots, q, now)| >= OVERLAP_SCAN_LIMIT
    ensures ScanOf(scan, slots, q) && !SeesOccupant(scan, now)
  {
    scan := Listed(slots, IdleIds(slots, q, now), OVERLAP_SCAN_LIMIT);
    forall k | 0 <= k < |scan|
      ensures scan[k].id in slots && slots[scan[k].id] == scan[k] && Overlaps(scan[k], q) && !Occupies(scan[k], now)
    {
      var id :| id in IdleIds(slots, q, now) && scan[k] == slots[id];
    }
  }

  lemma CrowdedScan(scan: seq<Slot>, slots: Table, q: Interval, now: Time)
    requires ScanOf(scan, slots, q) && |IdleIds(slots, q, now)| < OVERLAP_SCAN_LIMIT
    requires exists id :: id in slots && Overlaps(slots[id], q) && Occupies(slots[id], now)
    ensures SeesOccupant(scan, now)
  {
    if |scan| < OVERLAP_SCAN_LIMIT {
      var id :| id in slots && Overlaps(slots[id], q) && Occupies(slots[id], now);
      assert slots[id] in scan;
    } else if !SeesOccupant(scan, now) {
      IdsCount(scan);
      assert IdsOf(scan) <= IdleIds(slots, q, now);
      FewerInSubset(IdsOf(scan), IdleIds(slots, q, now));
    }
  }

  lemma FewerInSubset<T>(a: set<T>, b: set<T>)
    requires a <= b
    ensures |a| <= |b|
  {
    assert b == a + (b - a);
  }

  /**
   When the interval is occupied, every scan the limit allows shows it exactly when fewer
   than 200 overlapping rows are idle: with 200 of them a scan can miss the occupant.
   */
  lemma ScanSeesOccupant(slots: Table, q: Interval, now: Time)
    requires Keyed(slots)
    requires exists id :: id in slots && Overlaps(slots[id], q) && Occupies(slots[id], now)
    ensures (forall scan :: ScanOf(scan, slots, q) ==> SeesOccupant(scan, now)) <==> |IdleIds(slots, q, now)| < OVERLAP_SCAN_LIMIT
  {
    if |IdleIds(slots, q, now)| < OVERLAP_SCAN_LIMIT {
      forall scan | ScanOf(scan, slots, q)
        ensures SeesOccupant(scan, now)
      {
        CrowdedScan(scan, slots, q, now);
      }
    } else {
      var scan := IdleScan(slots, q, now);
    }
  }

  /** What occupies an interval blocks a writer there, whichever expired holds it found. */
  lemma OccupantBlocks(s: Slot, now: Time, stale: set<Id>)
    ensures Occupies(s, now) ==> Blocks(s, now, OpenTime, stale)
    ensures Occupies(s, now) && s.slotType == OpenTime ==> Blocks(s, now, FixedSlot, stale)
  {
  }

  // --------------------------------------------------------- consuming and restoring

  /** The filter of `consumeFixedSlots`. */
  predicate ConsumeFilter(s: Slot, q: Interval, ids: set<Id>, stale: set<Id>, now: Time) {
    && s.id in ids && s.court == q.court && s.environment == q.environment
    && s.slotType == FixedSlot && s.booking == None
    && ((s.status == Available && s.consumedBy == None)
        || (s.status == Held && s.consumedBy == None && s.holdExpiresAt.Some? && s.holdExpiresAt.value <= now)
        || (s.status == Unavailable && s.consumedBy.Some? && s.consumedBy.value in stale))
  }

  function ConsumedBy(s: Slot, consumer: Id): Slot {
    s.(status := Unavailable, consumedBy := Some(consumer), holdId := None, holdPartner := None,
       holdExpiresAt := None, version := s.version + 1)
  }

  function ConsumeRow(s: Slot, consumer: Id, q: Interval, ids: set<Id>, stale: set<Id>, now: Time): Slot {
    if ConsumeFilter(s, q, ids, stale, now) then ConsumedBy(s, consumer) else s
  }

  function ConsumeAll(slots: Table, consumer: Id, q: Interval, ids: set<Id>, stale: set<Id>, now: Time): Table {
    map id | id in slots :: ConsumeRow(slots[id], consumer, q, ids, stale, now)
  }

  function ConsumedIds(slots: Table, q: Interval, ids: set<Id>, stale: set<Id>, now: Time): set<Id> {
    set id | id in slots && ConsumeFilter(slots[id], q, ids, stale, now)
  }

  /** `consumeFixedSlots`: all of the rows, or a conflict. */
  function Consume(slots: Table, consumer: Id, q: Interval, ids: set<Id>, stale: set<Id>, now: Time): Option<Table> {
    if ids == {} then Some(slots)
    else if |ConsumedIds(slots, q, ids, stale, now)| != |ids| then None
    else Some(ConsumeAll(slots, consumer, q, ids, stale, now))
  }

  predicate PointsAt(s: Slot, court: Id, consumer: Id) {
    s.court == court && s.consumedBy == Some(consumer)
  }

  function RestoreRow(s: Slot, court: Id, consumer: Id): Slot {
    if PointsAt(s, court, consumer) then s.(status := Available, consumedBy := None, version := s.version + 1) else s
  }

  /** `restoreConsumedFixedSlots`. */
  function Restore(slots: Table, court: Id, consumer: Id): Table {
    map id | id in slots :: RestoreRow(slots[id], court, consumer)
  }

  /** Restore what a slot consumed, then delete the slot. */
  function Retire(slots: Table, court: Id, id: Id): Table {
    map k | k in slots && k != id :: RestoreRow(slots[k], court, id)
  }

  lemma RetireIsRestoreThenDelete(slots: Table, court: Id, id: Id)
    ensures Retire(slots, court, id) == Restore(slots, court, id) - {id}
  {
  }
}
