/**
 Who may hold, book and release slots: the state of the slots and courts collections, the
 transactions under way, and every step as a function from one state to the next.

 A placement (a hold, an owner's direct booking or block) reads its snapshot in one step
 and commits in a later one, so that other steps come between; it commits only if the court
 version it read is still current and no row it writes has changed. The reaper reads its
 candidates in one step and releases them in another. A confirmation commits in one step,
 but judges its hold by a clock reading it took at any time before. Every other transaction
 is one step.
 */
module Inventory {
  import opened Base
  import opened Slots

  datatype Request =
    | FixedHold(slot: Id, partner: Id, ttl: nat)
    | OpenHold(partner: Id, price: int, ttl: nat)
    | DirectBooking
    | OpenBlock

  /** A placement that has read its snapshot at time `at` and not yet committed. */
  datatype Placement = Placement(request: Request, interval: Interval, at: Time, courtVersion: nat, snapshot: Table)

  /** A batch the reaper read outside its transaction; `now` is when its pass began. */
  datatype Reading = Reading(now: Time, candidates: seq<Slot>)

  datatype State = State(
    slots: Table,
    courts: map<Id, nat>,
    nextId: Id,
    clock: Time,
    placements: set<Placement>,
    readings: set<Reading>
  )

  datatype InventoryError =
    | InvalidBookingInterval
    | SlotNotFound
    | SlotNotAvailable
    | InventoryVersionConflict
    | InventoryOverlap
    | DuplicateInterval
    | WriteConflict
    | InventoryConsumptionConflict
    | HoldNotActive
    | HoldConfirmationConflict
    | SlotDispositionConflict
    | BlockNotFound

  function Min(a: int, b: int): int {
    if a < b then a else b
  }

  /** `expiry`: a hold ends with its time to live or when the slot starts. */
  function Expiry(at: Time, startsAt: Time, ttl: nat): Time {
    Min(at + ttl, startsAt)
  }

  // --------------------------------------------------------------------- placements

  function BeginFixedHold(s: State, slot: Id, partner: Id, environment: Environment, ttl: nat,
                          at: Time): Result<State, InventoryError> {
    if slot !in s.slots || s.slots[slot].slotType != FixedSlot || s.slots[slot].court !in s.courts then Err(SlotNotFound)
    else
      var row := s.slots[slot];
      if row.startsAt <= at || row.price == None then Err(SlotNotAvailable)
      else
        var q := Interval(row.court, environment, row.startsAt, row.endsAt);
        Ok(s.(placements := s.placements + {Placement(FixedHold(slot, partner, ttl), q, at, s.courts[row.court], s.slots)}))
  }

  const HOUR_MS := 3_600_000

  predicate IntervalValid(request: Request, q: Interval, at: Time) {
    match request
    case FixedHold(_, _, _) => false
    case OpenHold(_, _, _) => q.startsAt > at && q.endsAt > q.startsAt
    case DirectBooking => q.endsAt - q.startsAt >= HOUR_MS
    case OpenBlock => q.startsAt < q.endsAt
  }

  function BeginOpen(s: State, request: Request, q: Interval, at: Time): Result<State, InventoryError> {
    if !IntervalValid(request, q, at) then Err(InvalidBookingInterval)
    else if q.court !in s.courts then Err(SlotNotFound)
    else Ok(s.(placements := s.placements + {Placement(request, q, at, s.courts[q.court], s.slots)}))
  }

  /** The filter of `claimFixedHold`. */
  predicate ClaimFilter(s: Slot, environment: Environment, stale: set<Id>, now: Time) {
    && s.environment == environment && s.slotType == FixedSlot && s.booking == None
    && (s.status == Available
        || (s.status == Held && s.holdExpiresAt.Some? && s.holdExpiresAt.value <= now)
        || (s.status == Unavailable && s.consumedBy.Some? && s.consumedBy.value in stale))
  }

  function Claimed(s: Slot, holdId: Id, partner: Id, expiresAt: Time): Slot {
    s.(status := Held, holdId := Some(holdId), holdPartner := Some(partner), holdExpiresAt := Some(expiresAt),
       consumedBy := None, version := s.version + 1)
  }

  function Bump(courts: map<Id, nat>, court: Id): map<Id, nat>
    requires court in courts
  {
    courts[court := courts[court] + 1]
  }

  predicate Unchanged(slots: Table, snapshot: Table, id: Id) {
    id in slots && id in snapshot && slots[id] == snapshot[id]
  }

  predicate SomethingBlocks(scan: seq<Slot>, now: Time, perspective: SlotType) {
    exists k :: 0 <= k < |scan| && Blocks(scan[k], now, perspective, StaleIds(scan, now))
  }

  function CommitFixedHold(s: State, p: Placement, scan: seq<Slot>): Result<State, InventoryError>
    requires p.request.FixedHold? && p.interval.court in s.courts
  {
    var id, considered := p.request.slot, Without(scan, Some(p.request.slot));
    if SomethingBlocks(considered, p.at, FixedSlot) then Err(InventoryOverlap)
    else if id !in p.snapshot || !ClaimFilter(p.snapshot[id], p.interval.environment, StaleIds(considered, p.at), p.at)
      then Err(SlotNotAvailable)
    else if !Unchanged(s.slots, p.snapshot, id) then Err(WriteConflict)
    else
      var claimed := Claimed(s.slots[id], s.nextId, p.request.partner, Expiry(p.at, p.interval.startsAt, p.request.ttl));
      Ok(s.(slots := s.slots[id := claimed], courts := Bump(s.courts, p.interval.court), nextId := s.nextId + 1))
  }

  /** The row an open-time writer inserts under the identifier `id`; its hold or booking takes the next one. */
  function OpenRow(p: Placement, id: Id): Slot
    requires !p.request.FixedHold?
  {
    var q := p.interval;
    match p.request
    case OpenHold(partner, price, ttl) =>
      Slot(id, q.court, q.environment, OpenTime, q.startsAt, q.endsAt, Some(price), Held, Some(id + 1), Some(partner),
           Some(Expiry(p.at, q.startsAt, ttl)), FromBooking, None, None, 1)
    case DirectBooking =>
      Slot(id, q.court, q.environment, OpenTime, q.startsAt, q.endsAt, None, Booked, None, None,
           None, OwnerDashboard, Some(id + 1), None, 1)
    case OpenBlock =>
      Slot(id, q.court, q.environment, OpenTime, q.startsAt, q.endsAt, None, Blocked, None, None,
           None, OwnerDashboard, None, None, 1)
  }

  predicate IntervalTaken(slots: Table, q: Interval, slotType: SlotType) {
    exists id :: id in slots && slots[id].court == q.court && slots[id].environment == q.environment
                 && slots[id].slotType == slotType && slots[id].startsAt == q.startsAt && slots[id].endsAt == q.endsAt
  }

  function ConsumableIds(scan: seq<Slot>, now: Time): set<Id> {
    set s | s in scan && Consumable(s, now, StaleIds(scan, now)) :: s.id
  }

  predicate AllUnchanged(slots: Table, snapshot: Table, ids: set<Id>) {
    forall id :: id in ids ==> Unchanged(slots, snapshot, id)
  }

  function CommitOpen(s: State, p: Placement, scan: seq<Slot>): Result<State, InventoryError>
    requires !p.request.FixedHold? && p.interval.court in s.courts
  {
    var ids := ConsumableIds(scan, p.at);
    if SomethingBlocks(scan, p.at, OpenTime) then Err(InventoryOverlap)
    else if IntervalTaken(s.slots, p.interval, OpenTime) then Err(DuplicateInterval)
    else if !AllUnchanged(s.slots, p.snapshot, ids) then Err(WriteConflict)
    else
      var id := s.nextId;
      var consumed := Consume(s.slots[id := OpenRow(p, id)], id, p.interval, ids, StaleIds(scan, p.at), p.at);
      if consumed == None then Err(InventoryConsumptionConflict)
      else Ok(s.(slots := consumed.value, courts := Bump(s.courts, p.interval.court), nextId := id + 2))
  }

  /** `lockCourt` and what follows it, on a scan of the snapshot. */
  function Commit(s: State, p: Placement, scan: seq<Slot>): Result<State, InventoryError> {
    if p.interval.court !in s.courts || s.courts[p.interval.court] != p.courtVersion then Err(InventoryVersionConflict)
    else if p.request.FixedHold? then CommitFixedHold(s, p, scan)
    else CommitOpen(s, p, scan)
  }

  // ---------------------------------------------------- confirmation and cancellation

  function BookedFrom(s: Slot, booking: Id): Slot {
    s.(status := Booked, booking := Some(booking), holdId := None, holdPartner := None, holdExpiresAt := None, version := s.version + 1)
  }

  /** What `confirm` and `confirmSlot` ask of the held slot; `at` is when the transaction read the clock. */
  predicate Confirmable(s: State, slot: Id, holdId: Id, partner: Id, environment: Environment, at: Time) {
    && slot in s.slots
    && var row := s.slots[slot];
       row.status == Held && row.holdId == Some(holdId) && row.holdPartner == Some(partner) && row.environment == environment
       && row.holdExpiresAt.Some? && row.holdExpiresAt.value > at && row.booking == None
  }

  /** `confirmSlot`, for a booking under the next identifier. */
  function Confirm(s: State, slot: Id, holdId: Id, partner: Id,
                   environment: Environment, at: Time): Result<State, InventoryError> {
    if !Confirmable(s, slot, holdId, partner, environment, at) then Err(HoldNotActive)
    else Ok(s.(slots := s.slots[slot := BookedFrom(s.slots[slot], s.nextId)], nextId := s.nextId + 1))
  }

  function ReleasedAs(s: Slot, status: Status): Slot {
    s.(status := status, booking := None, holdId := None, holdPartner := None, holdExpiresAt := None, version := s.version + 1)
  }

  /** `disposeSlot`. */
  function Dispose(s: State, slot: Id, booking: Id, release: bool): Result<State, InventoryError> {
    if slot !in s.slots || s.slots[slot].booking != Some(booking) || s.slots[slot].status != Booked then Err(SlotDispositionConflict)
    else
      var row := s.slots[slot];
      if release && row.slotType == OpenTime && row.source == FromBooking
        then Ok(s.(slots := Retire(s.slots, row.court, slot)))
      else Ok(s.(slots := s.slots[slot := ReleasedAs(row, if release then Available else Unavailable)]))
  }

  /** `releaseDirectSlot`: nothing to do when the slot is not booked by this booking. */
  function ReleaseDirect(s: State, slot: Id, booking: Id): State {
    if slot !in s.slots || s.slots[slot].booking != Some(booking) || s.slots[slot].status != Booked then s
    else s.(slots := Retire(s.slots, s.slots[slot].court, slot))
  }

  // ------------------------------------------------------------- the owner's own inventory

  /** `deleteOpenBlock`. */
  function ReleaseBlock(s: State, slot: Id, version: nat): Result<State, InventoryError> {
    if slot !in s.slots || s.slots[slot].slotType != OpenTime || s.slots[slot].status != Blocked || s.slots[slot].version != version
      then Err(BlockNotFound)
    else Ok(s.(slots := Retire(s.slots, s.slots[slot].court, slot)))
  }

  /** `updateFixedSlot`: block an available fixed slot, or make a blocked one available. */
  function SetFixed(s: State, slot: Id, block: bool, version: nat): Result<State, InventoryError> {
    if slot !in s.slots || s.slots[slot].slotType != FixedSlot || s.slots[slot].version != version
       || s.slots[slot].status != (if block then Available else Blocked) then Err(SlotNotAvailable)
    else Ok(s.(slots := s.slots[slot := s.slots[slot].(status := if block then Blocked else Available, version := version + 1)]))
  }

  /** One row of `bulkUpsertSlots`: a fixed slot, unless the interval has one. */
  function AddFixed(s: State, q: Interval, price: Option<int>): Result<State, InventoryError> {
    if q.startsAt >= q.endsAt || q.court !in s.courts then Err(InvalidBookingInterval)
    else if IntervalTaken(s.slots, q, FixedSlot) then Err(DuplicateInterval)
    else
      var row := Slot(s.nextId, q.court, q.environment, FixedSlot, q.startsAt, q.endsAt, price, Available, None, None, None,
                      SystemGenerated, None, None, 1);
      Ok(s.(slots := s.slots[s.nextId := row], nextId := s.nextId + 1))
  }

  // -------------------------------------------------------------------------- the reaper

  /** The filter of `expiredHoldFilter`, without its cursor. */
  predicate ExpiredHold(s: Slot, now: Time) {
    s.status == Held && s.holdExpiresAt.Some? && s.holdExpiresAt.value <= now && s.booking == None
  }

  datatype Outcome = FixedReleased | OpenDeleted | Skipped

  predicate Matches(slots: Table, c: Slot) {
    c.id in slots && slots[c.id].status == Held && slots[c.id].version == c.version
  }

  /** The rows `releaseExpiredHold` leaves: it restores what an open-time candidate consumed before it knows whether the delete will match. */
  function ReleaseExpired(slots: Table, c: Slot): Table {
    if c.slotType == OpenTime && c.source == FromBooking then
      var restored := Restore(slots, c.court, c.id);
      if Matches(restored, c) then restored - {c.id} else restored
    else if Matches(slots, c) then slots[c.id := ReleasedAs(slots[c.id], Available)]
    else slots
  }

  function OutcomeOf(slots: Table, c: Slot): Outcome {
    if c.slotType == OpenTime && c.source == FromBooking then
      if Matches(Restore(slots, c.court, c.id), c) then OpenDeleted else Skipped
    else if Matches(slots, c) then FixedReleased
    else Skipped
  }

  /** One batch, candidate after candidate, in one transaction. */
  function ReleaseAll(slots: Table, candidates: seq<Slot>): Table {
    if candidates == [] then slots
    else ReleaseExpired(ReleaseAll(slots, candidates[..|candidates| - 1]), candidates[|candidates| - 1])
  }

  // -------------------------------------------------------------------------------- steps

  datatype Step =
    | Tick(to: Time)
    | SBeginFixedHold(slot: Id, partner: Id, environment: Environment, ttl: nat, at: Time)
    | SBeginOpen(request: Request, interval: Interval, at: Time)
    | SCommit(placement: Placement, scan: seq<Slot>)
    | SConfirm(slot: Id, holdId: Id, partner: Id, environment: Environment, at: Time)
    | SDispose(slot: Id, booking: Id, release: bool)
    | SReleaseDirect(slot: Id, booking: Id)
    | SReleaseBlock(slot: Id, version: nat)
    | SSetFixed(slot: Id, block: bool, version: nat)
    | SAddFixed(interval: Interval, price: Option<int>)
    | SRead(reading: Reading)
    | SReap(reading: Reading)

  /** What the world may do next: time only rises, a scan is one the query may return, a reading is of expired holds. */
  predicate Possible(s: State, step: Step) {
    match step
    case Tick(to) => to >= s.clock
    case SBeginFixedHold(_, _, _, _, at) => at <= s.clock
    case SBeginOpen(_, _, at) => at <= s.clock
    case SCommit(p, scan) => p in s.placements && ScanOf(scan, p.snapshot, p.interval)
    case SConfirm(_, _, _, _, at) => at <= s.clock
    case SRead(r) =>
      r.now <= s.clock && DistinctSlots(r.candidates)
      && forall k :: 0 <= k < |r.candidates| ==>
           r.candidates[k].id in s.slots && s.slots[r.candidates[k].id] == r.candidates[k] && ExpiredHold(r.candidates[k], r.now)
    case SReap(r) => r in s.readings
    case _ => true
  }

  function Execute(s: State, step: Step): Result<State, InventoryError> {
    match step
    case Tick(to) => Ok(s.(clock := to))
    case SBeginFixedHold(slot, partner, environment, ttl, at) => BeginFixedHold(s, slot, partner, environment, ttl, at)
    case SBeginOpen(request, q, at) => BeginOpen(s, request, q, at)
    case SCommit(p, scan) => Commit(s, p, scan)
    case SConfirm(slot, holdId, partner, environment, at) => Confirm(s, slot, holdId, partner, environment, at)
    case SDispose(slot, booking, release) => Dispose(s, slot, booking, release)
    case SReleaseDirect(slot, booking) => Ok(ReleaseDirect(s, slot, booking))
    case SReleaseBlock(slot, version) => ReleaseBlock(s, slot, version)
    case SSetFixed(slot, block, version) => SetFixed(s, slot, block, version)
    case SAddFixed(q, price) => AddFixed(s, q, price)
    case SRead(r) => Ok(s.(readings := s.readings + {r}))
    case SReap(r) => Ok(s.(slots := ReleaseAll(s.slots, r.candidates)))
  }

  function After(s: State, step: Step): State {
    match Execute(s, step)
    case Ok(next) => next
    case Err(_) => s
  }
}
