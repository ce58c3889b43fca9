/**
 What every possible step on the inventory keeps without any condition: however late a
 confirmation commits and however short a scan is cut, the rows stay well-formed, no
 consumed slot loses its consumer, and an old batch of the reaper can release nothing else
 than what it read.
 */
module InventorySound {
  import opened Base
  import opened Slots
  import opened Inventory
  import opened InventoryInvariant

  /** A candidate is as it was read, or its row has moved on. */
  predicate CandidateRead(c: Slot, slots: Table, now: Time, next: Id) {
    && ExpiredHold(c, now) && Shape(c) && c.id < next
    && (c.id in slots ==> slots[c.id] == c || slots[c.id].version > c.version)
  }

  predicate ReadingSound(r: Reading, slots: Table, now: Time, next: Id) {
    forall k :: 0 <= k < |r.candidates| ==> CandidateRead(r.candidates[k], slots, now, next)
  }

  predicate Sound(s: State) {
    && TableOk(s.slots, s.nextId) && Links(s.slots)
    && (forall p :: p in s.placements ==> RequestOk(p) && p.interval.court in s.courts)
    && (forall r :: r in s.readings ==> ReadingSound(r, s.slots, s.clock, s.nextId))
  }

  // ------------------------------------------------------------------- changing the rows

  lemma ReadingsEvolve(readings: set<Reading>, a: Table, b: Table, now: Time, next: Id, after: Id)
    requires Evolves(a, b, next) && next <= after
    requires forall r :: r in readings ==> ReadingSound(r, a, now, next)
    ensures forall r :: r in readings ==> ReadingSound(r, b, now, after)
  {
  }

  /** A change after which rows are well-formed and linked keeps soundness. */
  lemma ChangeKeeps(s: State, slots: Table, courts: map<Id, nat>, next: Id)
    requires Sound(s) && TableOk(slots, next) && Links(slots) && s.nextId <= next && s.courts.Keys <= courts.Keys
    requires Evolves(s.slots, slots, s.nextId)
    ensures Sound(s.(slots := slots, courts := courts, nextId := next))
  {
    ReadingsEvolve(s.readings, s.slots, slots, s.clock, s.nextId, next);
  }

  lemma RowKeeps(s: State, id: Id, row: Slot, next: Id)
    requires Sound(s) && id in s.slots && s.nextId <= next
    requires SamePlace(s.slots[id], row) && Shape(row) && Known(row, next) && row.version > s.slots[id].version && row.consumedBy == None
    ensures Sound(s.(slots := s.slots[id := row], nextId := next))
  {
    LinksRevised(s.slots, id, row);
    ChangeKeeps(s, s.slots[id := row], s.courts, next);
  }

  lemma RetireKeepsSound(s: State, id: Id)
    requires Sound(s) && id in s.slots
    ensures Sound(s.(slots := Retire(s.slots, s.slots[id].court, id)))
  {
    var court := s.slots[id].court;
    RetireTable(s.slots, court, id, s.nextId);
    RetireLinks(s.slots, id);
    RetireQuiet(s.slots, court, id, s.clock, s.nextId);
    ChangeKeeps(s, Retire(s.slots, court, id), s.courts, s.nextId);
  }

  /** However long after its hold's end a confirmation commits, it keeps the rows sound. */
  lemma ConfirmKeepsSound(s: State, slot: Id, holdId: Id, partner: Id, environment: Environment, at: Time)
    requires Sound(s) && Confirm(s, slot, holdId, partner, environment, at).Ok?
    ensures Sound(Confirm(s, slot, holdId, partner, environment, at).value)
  {
    RowKeeps(s, slot, BookedFrom(s.slots[slot], s.nextId), s.nextId + 1);
  }

  lemma DisposeKeepsSound(s: State, slot: Id, booking: Id, release: bool)
    requires Sound(s) && Dispose(s, slot, booking, release).Ok?
    ensures Sound(Dispose(s, slot, booking, release).value)
  {
    var row := s.slots[slot];
    if release && row.slotType == OpenTime && row.source == FromBooking {
      RetireKeepsSound(s, slot);
    } else {
      RowKeeps(s, slot, ReleasedAs(row, if release then Available else Unavailable), s.nextId);
    }
  }

  lemma AddFixedKeepsSound(s: State, q: Interval, price: Option<int>)
    requires Sound(s) && AddFixed(s, q, price).Ok?
    ensures Sound(AddFixed(s, q, price).value)
  {
    var after := AddFixed(s, q, price).value.slots;
    LinksInserted(s.slots, s.nextId, after[s.nextId]);
    ChangeKeeps(s, after, s.courts, s.nextId + 1);
  }

  // ---------------------------------------------------------------------- the reaper

  lemma RestoreKeepsRows(slots: Table, court: Id, id: Id, next: Id)
    requires TableOk(slots, next) && Links(slots)
    ensures TableOk(Restore(slots, court, id), next) && Links(Restore(slots, court, id)) && Evolves(slots, Restore(slots, court, id), next)
  {
    var after := Restore(slots, court, id);
    forall k | k in after
      ensures Linked(after, after[k])
    {
      assert Linked(slots, slots[k]);
    }
  }

  /**
   What the reaper does with a candidate whatever happened since: a hit releases the very
   row it read; a miss leaves the rows alone, or has restored what the candidate's row consumed.
   */
  lemma ReleaseIsSound(slots: Table, c: Slot, now: Time, next: Id)
    requires TableOk(slots, next) && CandidateRead(c, slots, now, next)
    ensures OutcomeOf(slots, c) == Skipped <==> c.id !in slots || slots[c.id] != c
    ensures OutcomeOf(slots, c) == Skipped ==> ReleaseExpired(slots, c) == slots || ReleaseExpired(slots, c) == Restore(slots, c.court, c.id)
    ensures OutcomeOf(slots, c) == OpenDeleted ==> c.slotType == OpenTime && ReleaseExpired(slots, c) == Retire(slots, c.court, c.id)
    ensures OutcomeOf(slots, c) == FixedReleased ==> c.slotType == FixedSlot && ReleaseExpired(slots, c) == slots[c.id := ReleasedAs(c, Available)]
  {
    RetireIsRestoreThenDelete(slots, c.court, c.id);
  }

  lemma ReleaseKeepsSound(s: State, c: Slot)
    requires Sound(s) && CandidateRead(c, s.slots, s.clock, s.nextId)
    ensures Sound(s.(slots := ReleaseExpired(s.slots, c)))
  {
    ReleaseIsSound(s.slots, c, s.clock, s.nextId);
    match OutcomeOf(s.slots, c)
    case Skipped =>
      RestoreKeepsRows(s.slots, c.court, c.id, s.nextId);
      ChangeKeeps(s, ReleaseExpired(s.slots, c), s.courts, s.nextId);
    case OpenDeleted => RetireKeepsSound(s, c.id);
    case FixedReleased => RowKeeps(s, c.id, ReleasedAs(c, Available), s.nextId);
  }

  lemma {:induction false} ReapKeepsSound(s: State, r: Reading, n: nat)
    requires Sound(s) && r in s.readings && n <= |r.candidates|
    ensures Sound(s.(slots := ReleaseAll(s.slots, r.candidates[..n])))
  {
    if n > 0 {
      ReapKeepsSound(s, r, n - 1);
      assert r.candidates[..n][..n - 1] == r.candidates[..n - 1];
      var before := s.(slots := ReleaseAll(s.slots, r.candidates[..n - 1]));
      assert ReadingSound(r, before.slots, before.clock, before.nextId);
      ReleaseKeepsSound(before, r.candidates[n - 1]);
    }
  }

  // ---------------------------------------------------------------------- placements

  lemma CommitFixedHoldKeepsSound(s: State, p: Placement, scan: seq<Slot>)
    requires Sound(s) && p in s.placements && p.request.FixedHold? && Commit(s, p, scan).Ok?
    ensures Sound(Commit(s, p, scan).value)
  {
    var id := p.request.slot;
    var row := Claimed(s.slots[id], s.nextId, p.request.partner, Expiry(p.at, p.interval.startsAt, p.request.ttl));
    RowKeeps(s, id, row, s.nextId + 1);
    ChangeKeeps(s.(slots := s.slots[id := row], nextId := s.nextId + 1), s.slots[id := row], Bump(s.courts, p.interval.court), s.nextId + 1);
  }

  lemma CommitOpenKeepsSound(s: State, p: Placement, scan: seq<Slot>)
    requires Sound(s) && p in s.placements && !p.request.FixedHold? && Commit(s, p, scan).Ok?
    requires ScanOf(scan, p.snapshot, p.interval)
    ensures Sound(Commit(s, p, scan).value)
  {
    CommitOpenIs(s, p, scan);
    var id, row, ids, stale := s.nextId, OpenRow(p, s.nextId), ConsumableIds(scan, p.at), StaleIds(scan, p.at);
    OpenRowInsertable(p, id);
    ScanTakeable(p, scan, s.slots, id, row, stale);
    InsertedRows(s.slots, id, p, row, ids, stale);
    ChangeKeeps(s, ConsumeAll(s.slots[id := row], id, p.interval, ids, stale, p.at), Bump(s.courts, p.interval.court), id + 2);
  }

  /** Inserting an open-time row and consuming the grid under it leaves the rows well-formed and linked. */
  lemma InsertedRows(slots: Table, id: Id, p: Placement, row: Slot, ids: set<Id>, stale: set<Id>)
    requires TableOk(slots, id) && Links(slots) && Insertable(p, row, id)
    requires Takeable(slots[id := row], p.interval, ids, stale, p.at)
    ensures var after := ConsumeAll(slots[id := row], id, p.interval, ids, stale, p.at);
            TableOk(after, id + 2) && Links(after) && Evolves(slots, after, id)
  {
    LinksInserted(slots, id, row);
    ConsumeTable(slots[id := row], id, p.interval, ids, stale, p.at, id + 2);
    ConsumeLinks(slots[id := row], id, p.interval, ids, stale, p.at);
  }

  // -------------------------------------------------------------------------- every step

  /** No condition on how late a confirmation commits or how many rows a scan meets. */
  lemma StepKeepsSound(s: State, step: Step)
    requires Sound(s) && Possible(s, step)
    ensures Sound(After(s, step))
  {
    if Execute(s, step).Ok? {
      match step
      case Tick(to) =>
      case SBeginFixedHold(slot, partner, environment, ttl, at) =>
      case SBeginOpen(request, q, at) =>
      case SCommit(p, scan) =>
        if p.request.FixedHold? { CommitFixedHoldKeepsSound(s, p, scan); } else { CommitOpenKeepsSound(s, p, scan); }
      case SConfirm(slot, holdId, partner, environment, at) => ConfirmKeepsSound(s, slot, holdId, partner, environment, at);
      case SDispose(slot, booking, release) => DisposeKeepsSound(s, slot, booking, release);
      case SReleaseDirect(slot, booking) =>
        if ReleaseDirect(s, slot, booking) != s { RetireKeepsSound(s, slot); }
      case SReleaseBlock(slot, version) => RetireKeepsSound(s, slot);
      case SSetFixed(slot, block, version) =>
        RowKeeps(s, slot, s.slots[slot].(status := if block then Blocked else Available, version := version + 1), s.nextId);
      case SAddFixed(q, price) => AddFixedKeepsSound(s, q, price);
      case SRead(r) =>
      case SReap(r) =>
        ReapKeepsSound(s, r, |r.candidates|);
        assert r.candidates[..|r.candidates|] == r.candidates;
    }
  }

  // ------------------------------------------------------------------- expired holds

  /** No identifier comes back, and an expired open-time hold stays as it is or is deleted. */
  predicate Leaves(a: Table, b: Table, now: Time, next: Id) {
    StaleStay(a, b, now) && forall id :: id in b ==> id in a || id >= next
  }

  lemma {:induction false} ReapLeaves(s: State, r: Reading, n: nat)
    requires Sound(s) && r in s.readings && n <= |r.candidates|
    ensures Leaves(s.slots, ReleaseAll(s.slots, r.candidates[..n]), s.clock, s.nextId)
  {
    if n > 0 {
      ReapLeaves(s, r, n - 1);
      ReapKeepsSound(s, r, n - 1);
      assert r.candidates[..n][..n - 1] == r.candidates[..n - 1];
      var before := s.(slots := ReleaseAll(s.slots, r.candidates[..n - 1]));
      assert ReadingSound(r, before.slots, before.clock, before.nextId);
      ReleaseLeaves(before.slots, r.candidates[n - 1], s.clock, s.nextId);
    }
  }

  lemma ReleaseLeaves(slots: Table, c: Slot, now: Time, next: Id)
    requires TableOk(slots, next) && CandidateRead(c, slots, now, next)
    ensures Leaves(slots, ReleaseExpired(slots, c), now, next)
  {
  }

  lemma StepLeaves(s: State, step: Step)
    requires Sound(s) && Possible(s, step) && Timely(s, step)
    ensures Leaves(s.slots, After(s, step).slots, s.clock, s.nextId)
    ensures !step.SReap? ==> forall id :: id in s.slots && StaleHold(s.slots[id], s.clock) ==> id in After(s, step).slots
  {
    if Execute(s, step).Ok? {
      match step
      case SCommit(p, scan) => if !p.request.FixedHold? { CommitOpenIs(s, p, scan); }
      case SReap(r) =>
        ReapLeaves(s, r, |r.candidates|);
        assert r.candidates[..|r.candidates|] == r.candidates;
      case _ =>
    }
  }
}
