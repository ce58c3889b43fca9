/**
 What every transaction keeps across slots, bookings, ledger and idempotency records: a
 confirmed booking has its slot and exactly its journal, a cancelled one exactly its refund.
 */
module LifecycleInvariant {
  import opened Base
  import opened Lifecycle
  import opened Traces
  import LT = LedgerTypes
  import L = Ledger
  import Sp = Split
  import R = Refunds
  import A = Aggregates
  import B = Books
  import BI = BooksInvariant
  import BT = BooksTheorems
  import S = Slots
  import I = Inventory
  import II = InventoryInvariant
  import IS = InventorySound
  import IF = InventoryFrames

  // ------------------------------------------------------------------- the invariant

  type Bookings = map<Id, Booking>

  predicate BookedBy(s: S.Slot, bookings: Bookings) {
    s.status == S.Booked ==>
      s.booking.Some? && s.booking.value in bookings && bookings[s.booking.value].status == Confirmed && bookings[s.booking.value].slot == s.id
  }

  predicate HasSlot(b: Booking, slots: S.Table) {
    b.status == Confirmed ==> b.slot in slots && slots[b.slot].status == S.Booked && slots[b.slot].booking == Some(b.id)
  }

  /** Booked slots and confirmed bookings correspond one to one. */
  predicate SlotsBooked(slots: S.Table, bookings: Bookings) {
    && (forall id :: id in slots ==> BookedBy(slots[id], bookings))
    && (forall b :: b in bookings ==> HasSlot(bookings[b], slots))
  }

  predicate BookingIds(bookings: Bookings, next: Id) {
    forall b :: b in bookings ==> bookings[b].id == b && b < next
  }

  predicate HoldSpent(b: Booking, slots: S.Table, next: Id) {
    b.hold.Some? ==> b.hold.value < next && IF.HoldGone(slots, b.hold.value)
  }

  /** A hold that was confirmed is on no slot any more, and on no other booking. */
  predicate HoldsSpent(slots: S.Table, bookings: Bookings, next: Id) {
    && IF.HoldsDistinct(slots)
    && (forall b :: b in bookings ==> HoldSpent(bookings[b], slots, next))
    && (forall b, c :: b in bookings && c in bookings && b != c && bookings[b].hold.Some? ==> bookings[b].hold != bookings[c].hold)
  }

  predicate SameKey(a: Booking, b: Booking) {
    a.partner.Some? && a.partner == b.partner && a.environment == b.environment && a.key == b.key
  }

  predicate KeysUnique(bookings: Bookings) {
    forall b, c :: b in bookings && c in bookings && b != c ==> !SameKey(bookings[b], bookings[c])
  }

  /** Exactly the cancelled bookings have a cancellation, and one each. */
  predicate CancellationsOk(cancellations: seq<Cancellation>, bookings: Bookings) {
    && (forall i, j :: 0 <= i < j < |cancellations| ==> cancellations[i].booking != cancellations[j].booking)
    && (forall k :: 0 <= k < |cancellations| ==>
          cancellations[k].booking in bookings && bookings[cancellations[k].booking].status == Cancelled)
    && (forall b :: b in bookings && bookings[b].status == Cancelled ==> HasCancellation(cancellations, b))
  }

  function JournalOf(b: Booking): seq<LT.Row> {
    if b.partner.Some? && b.contract.Some? then L.BookingRows(SnapshotOf(b), b.confirmedAt, b.correlation, b.journal) else []
  }

  /** The ledger has exactly the booking's journal, and no refund unless it was cancelled. */
  predicate Journaled(rows: seq<LT.Row>, b: Booking) {
    && Trace(rows, b.id, Confirmations) == JournalOf(b)
    && (b.partner.Some? ==> b.contract.Some? && L.BookingAmountsError(SnapshotOf(b)) == None)
    && (b.status == Confirmed || b.partner == None ==> Trace(rows, b.id, Refunds) == [])
  }

  /** The ledger has exactly the refund the cancellation records. */
  predicate Refunded(rows: seq<LT.Row>, b: Booking, c: Cancellation) {
    b.partner.Some? ==>
      0 <= c.refundPercent <= 100 && c.refundAmount == R.RefundAmount(b.amounts.gross, c.refundPercent)
      && Trace(rows, b.id, Refunds) == RefundRows(JournalOf(b), c.refundPercent, c.cancelledAt, c.correlation, c.journal)
  }

  predicate AllRefunded(rows: seq<LT.Row>, bookings: Bookings, cancellations: seq<Cancellation>) {
    forall k :: 0 <= k < |cancellations| && cancellations[k].booking in bookings ==>
      Refunded(rows, bookings[cancellations[k].booking], cancellations[k])
  }

  predicate RowKnown(r: LT.Row, bookings: Bookings) {
    r.entryType.AdjustmentEntry? || r.booking in bookings
  }

  predicate LedgerOfBookings(rows: seq<LT.Row>, bookings: Bookings, cancellations: seq<Cancellation>) {
    && (forall b :: b in bookings ==> Journaled(rows, bookings[b]))
    && AllRefunded(rows, bookings, cancellations)
    && (forall k :: 0 <= k < |rows| ==> RowKnown(rows[k], bookings))
  }

  predicate SameAnswer(a: Record, b: Record) {
    RecordFor(a, b.partner, b.environment, b.key, b.operation)
  }

  /** A record's response is the booking, as confirmed, or the cancellation that its request made. */
  predicate RecordOk(r: Record, bookings: Bookings, cancellations: seq<Cancellation>) {
    match r.operation
    case ConfirmBooking =>
      r.response.Confirmation? && r.request.ConfirmRequest?
      && var b := r.response.booking;
         b.id in bookings && b == bookings[b.id].(status := Confirmed)
         && b.hold == Some(r.request.hold) && b.partner == Some(r.partner) && b.environment == r.environment && b.key == r.key
    case CancelBooking(id) =>
      r.response.Cancelling? && r.request.CancelRequest? && r.request.booking == id
      && r.response.cancellation.booking == id && r.response.cancellation in cancellations
  }

  predicate RecordsOk(records: seq<Record>, bookings: Bookings, cancellations: seq<Cancellation>) {
    && (forall i, j :: 0 <= i < j < |records| ==> !SameAnswer(records[i], records[j]))
    && (forall k :: 0 <= k < |records| ==> RecordOk(records[k], bookings, cancellations))
  }

  /** The bookings, their ledger rows, their cancellations and the stored answers among themselves. */
  predicate DocsInv(rows: seq<LT.Row>, bookings: Bookings, cancellations: seq<Cancellation>, records: seq<Record>,
                    next: Id) {
    && BookingIds(bookings, next)
    && KeysUnique(bookings)
    && CancellationsOk(cancellations, bookings)
    && LedgerOfBookings(rows, bookings, cancellations)
    && RecordsOk(records, bookings, cancellations)
  }

  predicate Inv(s: System) {
    && IS.Sound(s.inventory) && BI.Inv(s.books)
    && SlotsBooked(s.inventory.slots, s.bookings)
    && HoldsSpent(s.inventory.slots, s.bookings, s.inventory.nextId)
    && DocsInv(B.Rows(s.books), s.bookings, s.cancellations, s.records, s.inventory.nextId)
  }

  // ------------------------------------------------------- inventory and finance steps

  lemma SlotsBookedKept(a: S.Table, b: S.Table, bookings: Bookings)
    requires SlotsBooked(a, bookings) && IF.BookedSame(a, b, None)
    ensures SlotsBooked(b, bookings)
  {
  }

  lemma HoldsSpentKept(a: S.Table, b: S.Table, bookings: Bookings, next: Id, after: Id)
    requires HoldsSpent(a, bookings, next) && IF.HoldsFrom(a, b, next) && II.TableOk(a, next) && next <= after
    ensures HoldsSpent(b, bookings, after)
  {
  }

  lemma InventoryKeeps(s: System, i: I.Step)
    requires Inv(s) && I.Possible(s.inventory, i) && IF.Neutral(i)
    ensures Inv(s.(inventory := I.After(s.inventory, i)))
  {
    var after := I.After(s.inventory, i);
    IS.StepKeepsSound(s.inventory, i);
    if I.Execute(s.inventory, i).Ok? {
      IF.NeutralFrame(s.inventory, i);
      SlotsBookedKept(s.inventory.slots, after.slots, s.bookings);
      HoldsSpentKept(s.inventory.slots, after.slots, s.bookings, s.inventory.nextId, after.nextId);
    }
  }

  /** Both ledgers hold the same of every booking. */
  ghost predicate SameTraces(rows: seq<LT.Row>, others: seq<LT.Row>) {
    forall booking, kind :: Trace(others, booking, kind) == Trace(rows, booking, kind)
  }

  lemma PutTraces(a: B.Allocation, rows: seq<LT.Row>)
    ensures SameTraces(rows, B.PutAll(a, rows))
  {
    forall booking, kind
      ensures Trace(B.PutAll(a, rows), booking, kind) == Trace(rows, booking, kind)
    {
      TraceGrows(rows, B.PutAll(a, rows), booking, kind);
    }
  }

  lemma PutKnown(a: B.Allocation, rows: seq<LT.Row>, bookings: Bookings)
    requires forall k :: 0 <= k < |rows| ==> RowKnown(rows[k], bookings)
    ensures forall k :: 0 <= k < |rows| ==> RowKnown(B.PutAll(a, rows)[k], bookings)
  {
  }

  lemma AdjustmentTraces(rows: seq<LT.Row>, posted: seq<LT.Row>)
    requires forall k :: 0 <= k < |posted| ==> posted[k].entryType.AdjustmentEntry?
    ensures SameTraces(rows, rows + posted)
  {
    forall booking, kind
      ensures Trace(rows + posted, booking, kind) == Trace(rows, booking, kind)
    {
      TraceAppend(rows, posted, booking, kind);
      TraceNone(posted, booking, kind);
    }
  }

  lemma SameTracesKeep(rows: seq<LT.Row>, others: seq<LT.Row>, bookings: Bookings, cancellations: seq<Cancellation>)
    requires LedgerOfBookings(rows, bookings, cancellations) && SameTraces(rows, others)
    requires forall k :: 0 <= k < |others| ==> RowKnown(others[k], bookings)
    ensures LedgerOfBookings(others, bookings, cancellations)
  {
  }

  lemma AllocationLedger(books: B.Books, a: B.Allocation, bookings: Bookings, cancellations: seq<Cancellation>)
    requires LedgerOfBookings(B.Rows(books), bookings, cancellations)
    ensures LedgerOfBookings(A.Flatten(B.PutBatches(a, books.batches)), bookings, cancellations)
  {
    BI.PutFlatten(a, books.batches);
    PutTraces(a, B.Rows(books));
    PutKnown(a, B.Rows(books), bookings);
    SameTracesKeep(B.Rows(books), B.PutAll(a, B.Rows(books)), bookings, cancellations);
  }

  lemma AdjustmentLedger(books: B.Books, posted: seq<LT.Row>, bookings: Bookings, cancellations: seq<Cancellation>)
    requires LedgerOfBookings(B.Rows(books), bookings, cancellations)
    requires forall k :: 0 <= k < |posted| ==> posted[k].entryType.AdjustmentEntry?
    ensures LedgerOfBookings(B.Rows(B.Append(books, posted)), bookings, cancellations)
  {
    BI.AppendRows(books, posted);
    AdjustmentTraces(B.Rows(books), posted);
    SameTracesKeep(B.Rows(books), B.Rows(books) + posted, bookings, cancellations);
  }

  lemma FinanceLedger(books: B.Books, c: BT.Command, bookings: Bookings, cancellations: seq<Cancellation>)
    requires LedgerOfBookings(B.Rows(books), bookings, cancellations)
    requires !c.CPostBooking? && !c.CPostCancellation? && BT.Execute(books, c).Ok?
    ensures LedgerOfBookings(B.Rows(BT.Execute(books, c).value), bookings, cancellations)
  {
    match c
    case CGenerate(partner, environment, from, to, contracts) =>
      var st := BI.GenerateIs(books, partner, environment, from, to, contracts);
      var entries := A.Select(B.Rows(books), A.UnsettledIn(partner, environment, from, to));
      AllocationLedger(books, B.ToSettlement(B.Ids(entries), books.nextId), bookings, cancellations);
    case CInitiatePayout(st, v, account, key, gate) =>
      if !(exists p :: p in books.payouts && books.payouts[p].key == key) {
        var payout := BI.NewPayoutIs(books, st, v, account, key, gate);
        var entries := A.Select(B.Rows(books), A.PayableOf(st, v));
        AllocationLedger(books, B.ToPayout(B.Ids(entries), st, v, books.nextId), bookings, cancellations);
      }
    case CRecordAdjustment(st, booking, lines, reason, evidence, at, correlation, now) =>
      var posted := BI.AdjustmentIs(books, st, booking, lines, reason, evidence, at, correlation, now);
      AdjustmentLedger(books, posted, bookings, cancellations);
    case _ =>
  }

  lemma FinanceKeeps(s: System, c: BT.Command)
    requires Inv(s) && !c.CPostBooking? && !c.CPostCancellation?
    ensures Inv(s.(books := BT.Step(s.books, c)))
  {
    BT.StepKeeps(s.books, c);
    if BT.Execute(s.books, c).Ok? {
      FinanceLedger(s.books, c, s.bookings, s.cancellations);
    }
  }

  // ----------------------------------------------------------------- a new booking

  /** A booking that is not among the bookings and whose rows the ledger does not hold yet. */
  lemma NoRowsYet(rows: seq<LT.Row>, bookings: Bookings, id: Id, kind: Kind)
    requires forall k :: 0 <= k < |rows| ==> RowKnown(rows[k], bookings)
    requires id !in bookings
    ensures Trace(rows, id, kind) == []
  {
  }

  /** Rows of one booking's own, none of them taken by a settlement yet. */
  predicate OwnRows(posted: seq<LT.Row>, id: Id, kind: Kind) {
    forall k :: 0 <= k < |posted| ==> Traced(posted[k], id, kind) && Erase(posted[k]) == posted[k]
  }

  /** Another booking's rows change nothing about a booking. */
  lemma OthersKeep(rows: seq<LT.Row>, posted: seq<LT.Row>, own: Id, kind: Kind, b: Booking)
    requires Journaled(rows, b) && OwnRows(posted, own, kind) && b.id != own
    ensures Journaled(rows + posted, b)
    ensures forall c :: Refunded(rows, b, c) ==> Refunded(rows + posted, b, c)
  {
    TraceOfPosting(rows, posted, b.id, own, kind);
  }

  lemma FirstRows(rows: seq<LT.Row>, b: Booking, bookings: Bookings)
    requires forall k :: 0 <= k < |rows| ==> RowKnown(rows[k], bookings)
    requires b.id !in bookings && b.status == Confirmed
    requires b.partner.Some? ==> b.contract.Some? && L.BookingAmountsError(SnapshotOf(b)) == None
    ensures OwnRows(JournalOf(b), b.id, Confirmations) && Journaled(rows + JournalOf(b), b)
  {
    NoRowsYet(rows, bookings, b.id, Confirmations);
    NoRowsYet(rows, bookings, b.id, Refunds);
    TraceOfPosting(rows, JournalOf(b), b.id, b.id, Confirmations);
  }

  lemma RefundsKept(rows: seq<LT.Row>, posted: seq<LT.Row>, own: Id, kind: Kind, bookings: Bookings,
                    cancellations: seq<Cancellation>, k: nat)
    requires AllRefunded(rows, bookings, cancellations) && OwnRows(posted, own, kind)
    requires forall b :: b in bookings ==> bookings[b].id == b && Journaled(rows, bookings[b])
    requires k < |cancellations| && cancellations[k].booking in bookings && cancellations[k].booking != own
    ensures Refunded(rows + posted, bookings[cancellations[k].booking], cancellations[k])
  {
    OthersKeep(rows, posted, own, kind, bookings[cancellations[k].booking]);
  }

  lemma RowsKnown(rows: seq<LT.Row>, posted: seq<LT.Row>, own: Id, kind: Kind, bookings: Bookings, after: Bookings)
    requires (forall k :: 0 <= k < |rows| ==> RowKnown(rows[k], bookings)) && OwnRows(posted, own, kind)
    requires bookings.Keys + {own} == after.Keys
    ensures forall k :: 0 <= k < |rows + posted| ==> RowKnown((rows + posted)[k], after)
  {
  }

  /** Adding a booking together with the rows of its own journal. */
  lemma LedgerGains(rows: seq<LT.Row>, bookings: Bookings, cancellations: seq<Cancellation>, b: Booking, next: Id)
    requires LedgerOfBookings(rows, bookings, cancellations) && BookingIds(bookings, next)
    requires b.id !in bookings && b.status == Confirmed
    requires b.partner.Some? ==> b.contract.Some? && L.BookingAmountsError(SnapshotOf(b)) == None
    requires forall k :: 0 <= k < |cancellations| ==> cancellations[k].booking in bookings
    ensures LedgerOfBookings(rows + JournalOf(b), bookings[b.id := b], cancellations)
  {
    var posted, all := JournalOf(b), bookings[b.id := b];
    FirstRows(rows, b, bookings);
    forall k | k in all
      ensures Journaled(rows + posted, all[k])
    {
      if k != b.id {
        OthersKeep(rows, posted, b.id, Confirmations, bookings[k]);
      }
    }
    forall k | 0 <= k < |cancellations| && cancellations[k].booking in all
      ensures Refunded(rows + posted, all[cancellations[k].booking], cancellations[k])
    {
      RefundsKept(rows, posted, b.id, Confirmations, bookings, cancellations, k);
    }
    RowsKnown(rows, posted, b.id, Confirmations, bookings, all);
  }

  lemma SlotsGain(a: S.Table, after: S.Table, bookings: Bookings, b: Booking, next: Id)
    requires SlotsBooked(a, bookings) && BookingIds(bookings, next) && b.id !in bookings && b.status == Confirmed
    requires IF.BookedSame(a, after, Some(b.slot)) && (b.slot in a ==> a[b.slot].status != S.Booked)
    requires b.slot in after && after[b.slot].id == b.slot
    requires after[b.slot].status == S.Booked && after[b.slot].booking == Some(b.id)
    ensures SlotsBooked(after, bookings[b.id := b])
  {
  }

  lemma RecordsGrow(records: seq<Record>, bookings: Bookings, cancellations: seq<Cancellation>, b: Booking)
    requires RecordsOk(records, bookings, cancellations) && b.id !in bookings
    ensures RecordsOk(records, bookings[b.id := b], cancellations)
  {
  }

  lemma RecordAdded(records: seq<Record>, bookings: Bookings, cancellations: seq<Cancellation>, r: Record)
    requires RecordsOk(records, bookings, cancellations) && RecordOk(r, bookings, cancellations)
    requires FindRecord(records, r.partner, r.environment, r.key, r.operation) == None
    ensures RecordsOk(records + [r], bookings, cancellations)
  {
  }

  lemma HoldsGain(a: S.Table, after: S.Table, bookings: Bookings, b: Booking, next: Id, later: Id)
    requires HoldsSpent(a, bookings, next) && IF.HoldsFrom(a, after, next) && II.TableOk(a, next) && next <= later
    requires b.id !in bookings && HoldSpent(b, after, later)
    requires b.hold.Some? ==> forall k :: k in bookings ==> bookings[k].hold != b.hold
    ensures HoldsSpent(after, bookings[b.id := b], later)
  {
  }

  /** What a confirmation without a record writes. */
  lemma ConfirmNewIs(s: System, c: ConfirmCall) returns (b: Booking)
    requires ConfirmNew(s, c).Ok?
    ensures I.Confirmable(s.inventory, c.slot, c.hold, c.partner, c.environment, c.at)
    ensures b.id == s.inventory.nextId && b.slot == c.slot && b.hold == Some(c.hold) && b.partner == Some(c.partner)
    ensures b.environment == c.environment && b.key == c.key && b.status == Confirmed && b.contract.Some?
    ensures !KeyTaken(s.bookings, c.partner, c.environment, c.key)
    ensures var posted := B.PostBooking(s.books, SnapshotOf(b), b.confirmedAt, b.correlation);
            posted.Ok? && b.journal == s.books.nextId
            && ConfirmNew(s, c).value == Outcome(
                 System(I.Confirm(s.inventory, c.slot, c.hold, c.partner, c.environment, c.at).value, posted.value,
                        s.bookings[b.id := b], s.cancellations,
                        s.records + [Record(c.partner, c.environment, c.key, ConfirmBooking, ConfirmHash(c), Confirmation(b),
                                            c.at + IDEMPOTENCY_TTL_MS)]),
                 Confirmation(b))
  {
    b := NewBooking(s, c, s.inventory.slots[c.slot].price.value, c.context.value, s.inventory.slots[c.slot]);
  }

  /** A confirmation's posting appends exactly its own journal. */
  lemma BookingPosted(books: B.Books, b: Booking)
    requires BI.Inv(books) && b.partner.Some? && b.contract.Some? && b.journal == books.nextId
    requires B.PostBooking(books, SnapshotOf(b), b.confirmedAt, b.correlation).Ok?
    ensures L.BookingAmountsError(SnapshotOf(b)) == None
    ensures var after := B.PostBooking(books, SnapshotOf(b), b.confirmedAt, b.correlation).value;
            BI.Inv(after) && B.Rows(after) == B.Rows(books) + JournalOf(b)
  {
    L.BookingAccepted(SnapshotOf(b), b.confirmedAt, b.correlation, books.nextId);
    BI.PostBookingKeeps(books, SnapshotOf(b), b.confirmedAt, b.correlation);
    BI.AppendRows(books, JournalOf(b));
  }

  /** The confirmed hold leaves the slots for good. */
  lemma ConfirmedHoldGone(slots: S.Table, slot: Id, hold: Id, row: S.Slot)
    requires IF.HoldsDistinct(slots) && slot in slots && slots[slot].holdId == Some(hold) && row.holdId == None
    ensures IF.HoldGone(slots[slot := row], hold)
  {
  }

  lemma ConfirmSlots(s: System, c: ConfirmCall, b: Booking)
    requires IS.Sound(s.inventory) && SlotsBooked(s.inventory.slots, s.bookings)
    requires BookingIds(s.bookings, s.inventory.nextId)
    requires HoldsSpent(s.inventory.slots, s.bookings, s.inventory.nextId)
    requires I.Confirmable(s.inventory, c.slot, c.hold, c.partner, c.environment, c.at)
    requires b.id == s.inventory.nextId && b.slot == c.slot && b.hold == Some(c.hold) && b.status == Confirmed
    ensures var after := I.Confirm(s.inventory, c.slot, c.hold, c.partner, c.environment, c.at).value;
            IS.Sound(after) && SlotsBooked(after.slots, s.bookings[b.id := b])
            && HoldsSpent(after.slots, s.bookings[b.id := b], after.nextId) && after.nextId == s.inventory.nextId + 1
  {
    var slots, next := s.inventory.slots, s.inventory.nextId;
    var row := I.BookedFrom(slots[c.slot], next);
    IS.ConfirmKeepsSound(s.inventory, c.slot, c.hold, c.partner, c.environment, c.at);
    IF.ReviseFrame(slots, c.slot, row);
    IF.KeptIsFrom(slots, slots[c.slot := row], next);
    SlotsGain(slots, slots[c.slot := row], s.bookings, b, next);
    ConfirmedHoldGone(slots, c.slot, c.hold, row);
    forall k | k in s.bookings
      ensures s.bookings[k].hold != b.hold
    {
      assert HoldSpent(s.bookings[k], slots, next);
    }
    HoldsGain(slots, slots[c.slot := row], s.bookings, b, next, next + 1);
  }

  lemma KeysGain(bookings: Bookings, b: Booking, partner: Id)
    requires KeysUnique(bookings) && b.id !in bookings
    requires b.partner == Some(partner) ==> !KeyTaken(bookings, partner, b.environment, b.key)
    requires b.partner == Some(partner) || b.partner == None
    ensures KeysUnique(bookings[b.id := b])
  {
  }

  /** A booking of nobody else's key, with its journal. */
  lemma DocsGain(rows: seq<LT.Row>, bookings: Bookings, cancellations: seq<Cancellation>, records: seq<Record>,
                 next: Id,
                 b: Booking, partner: Id, later: Id)
    requires DocsInv(rows, bookings, cancellations, records, next) && next <= b.id < later && b.status == Confirmed
    requires b.partner.Some? ==> b.contract.Some? && L.BookingAmountsError(SnapshotOf(b)) == None
    requires b.partner == None || (b.partner == Some(partner) && !KeyTaken(bookings, partner, b.environment, b.key))
    ensures DocsInv(rows + JournalOf(b), bookings[b.id := b], cancellations, records, later)
  {
    LedgerGains(rows, bookings, cancellations, b, next);
    KeysGain(bookings, b, partner);
    RecordsGrow(records, bookings, cancellations, b);
  }

  lemma ConfirmNewKeeps(s: System, c: ConfirmCall)
    requires Inv(s) && ConfirmNew(s, c).Ok?
    requires FindRecord(s.records, c.partner, c.environment, c.key, ConfirmBooking) == None
    ensures Inv(ConfirmNew(s, c).value.state)
  {
    var b := ConfirmNewIs(s, c);
    ConfirmSlots(s, c, b);
    BookingPosted(s.books, b);
    DocsGain(B.Rows(s.books), s.bookings, s.cancellations, s.records, s.inventory.nextId, b, c.partner, s.inventory.nextId + 1);
    RecordAdded(s.records, s.bookings[b.id := b], s.cancellations,
                Record(c.partner, c.environment, c.key, ConfirmBooking, ConfirmHash(c), Confirmation(b), c.at + IDEMPOTENCY_TTL_MS));
  }

  // -------------------------------------------------------------- ending a booking

  function Ended(b: Booking): Booking {
    b.(status := Cancelled)
  }

  lemma SlotsLose(a: S.Table, after: S.Table, bookings: Bookings, id: Id, next: Id)
    requires SlotsBooked(a, bookings) && BookingIds(bookings, next)
    requires id in bookings && bookings[id].status == Confirmed
    requires IF.BookedSame(a, after, Some(bookings[id].slot)) && II.TableOk(a, next)
    requires bookings[id].slot in after ==> after[bookings[id].slot].status != S.Booked
    ensures SlotsBooked(after, bookings[id := Ended(bookings[id])])
  {
  }

  lemma HoldsOfEnded(slots: S.Table, bookings: Bookings, id: Id, next: Id)
    requires HoldsSpent(slots, bookings, next) && id in bookings
    ensures HoldsSpent(slots, bookings[id := Ended(bookings[id])], next)
  {
  }

  lemma KeysOfEnded(bookings: Bookings, id: Id, next: Id)
    requires KeysUnique(bookings) && BookingIds(bookings, next) && id in bookings
    ensures KeysUnique(bookings[id := Ended(bookings[id])]) && BookingIds(bookings[id := Ended(bookings[id])], next)
  {
  }

  lemma CancellationAdded(cancellations: seq<Cancellation>, bookings: Bookings, c: Cancellation)
    requires CancellationsOk(cancellations, bookings) && c.booking in bookings
    requires bookings[c.booking].status == Confirmed
    ensures CancellationsOk(cancellations + [c], bookings[c.booking := Ended(bookings[c.booking])])
  {
    var more, all := cancellations + [c], bookings[c.booking := Ended(bookings[c.booking])];
    forall b | b in all && all[b].status == Cancelled
      ensures HasCancellation(more, b)
    {
      if b == c.booking {
        assert more[|cancellations|].booking == b;
      } else {
        assert HasCancellation(cancellations, b);
        var k :| 0 <= k < |cancellations| && cancellations[k].booking == b;
        assert more[k].booking == b;
      }
    }
  }

  lemma RecordsOfEnded(records: seq<Record>, bookings: Bookings, cancellations: seq<Cancellation>, id: Id,
                       c: Cancellation)
    requires RecordsOk(records, bookings, cancellations) && id in bookings
    ensures RecordsOk(records, bookings[id := Ended(bookings[id])], cancellations + [c])
  {
  }

  lemma JournalOwn(b: Booking)
    ensures forall m :: 0 <= m < |JournalOf(b)| ==> JournalOf(b)[m].booking == b.id
  {
  }

  lemma ReversalsOwn(journal: seq<LT.Row>, id: Id, amounts: seq<int>, at: Time, correlation: string, first: Id)
    requires |amounts| == |journal| && forall m :: 0 <= m < |journal| ==> journal[m].booking == id
    ensures OwnRows(L.ReversalRows(journal, amounts, at, correlation, first), id, Refunds)
  {
  }

  /** The booking's own refund rows make it a refunded booking. */
  lemma RefundPosted(rows: seq<LT.Row>, b: Booking, c: Cancellation)
    requires Journaled(rows, b) && b.status == Confirmed && c.booking == b.id && 0 <= c.refundPercent <= 100
    requires c.refundAmount == R.RefundAmount(b.amounts.gross, c.refundPercent) && b.partner.Some?
    ensures var posted := RefundRows(JournalOf(b), c.refundPercent, c.cancelledAt, c.correlation, c.journal);
            OwnRows(posted, b.id, Refunds) && Journaled(rows + posted, Ended(b)) && Refunded(rows + posted, Ended(b), c)
  {
    var posted := RefundRows(JournalOf(b), c.refundPercent, c.cancelledAt, c.correlation, c.journal);
    JournalOwn(b);
    ReversalsOwn(JournalOf(b), b.id, Sp.Scaled(L.Legs(JournalOf(b)), c.refundPercent), c.cancelledAt, c.correlation, c.journal);
    TraceOfPosting(rows, posted, b.id, b.id, Refunds);
    assert JournalOf(Ended(b)) == JournalOf(b);
  }

  lemma LedgerLoses(rows: seq<LT.Row>, bookings: Bookings, cancellations: seq<Cancellation>, c: Cancellation,
                    posted: seq<LT.Row>, next: Id)
    requires LedgerOfBookings(rows, bookings, cancellations) && BookingIds(bookings, next)
    requires c.booking in bookings && OwnRows(posted, c.booking, Refunds)
    requires Journaled(rows + posted, Ended(bookings[c.booking]))
    requires Refunded(rows + posted, Ended(bookings[c.booking]), c)
    requires forall k :: 0 <= k < |cancellations| ==> cancellations[k].booking != c.booking
    ensures LedgerOfBookings(rows + posted, bookings[c.booking := Ended(bookings[c.booking])], cancellations + [c])
  {
    var id := c.booking;
    var all, more := bookings[id := Ended(bookings[id])], cancellations + [c];
    forall k | k in all
      ensures Journaled(rows + posted, all[k])
    {
      if k != id {
        OthersKeep(rows, posted, id, Refunds, bookings[k]);
      }
    }
    forall k | 0 <= k < |more| && more[k].booking in all
      ensures Refunded(rows + posted, all[more[k].booking], more[k])
    {
      if k < |cancellations| {
        RefundsKept(rows, posted, id, Refunds, bookings, cancellations, k);
      }
    }
    RowsKnown(rows, posted, id, Refunds, bookings, all);
  }

  /** A cancellation's posting appends exactly the refund of the booking's own journal. */
  lemma CancellationPosted(books: B.Books, b: Booking, percent: nat, at: Time, correlation: string)
    requires BI.Inv(books) && Journaled(B.Rows(books), b) && b.partner.Some? && percent <= 100
    requires B.PostCancellation(books, SnapshotOf(b), percent, at, correlation).Ok?
    ensures var after := B.PostCancellation(books, SnapshotOf(b), percent, at, correlation).value;
            BI.Inv(after) && B.Rows(after) == B.Rows(books) + RefundRows(JournalOf(b), percent, at, correlation, books.nextId)
  {
    A.FlattenShaped(books.batches);
    CancellationIsRefund(B.Rows(books), SnapshotOf(b), JournalOf(b), percent, at, correlation, books.nextId);
    BI.PostCancellationKeeps(books, SnapshotOf(b), percent, at, correlation);
    BI.AppendRows(books, RefundRows(JournalOf(b), percent, at, correlation, books.nextId));
  }

  /** Disposing of a booked slot frees it of its booking and touches no other booked slot. */
  lemma DisposeFrame(s: I.State, slot: Id, booking: Id, release: bool)
    requires IS.Sound(s) && I.Dispose(s, slot, booking, release).Ok?
    ensures var after := I.Dispose(s, slot, booking, release).value;
            IS.Sound(after) && after.nextId == s.nextId && IF.BookedSame(s.slots, after.slots, Some(slot))
            && IF.HoldsFrom(s.slots, after.slots, s.nextId) && (slot in after.slots ==> after.slots[slot].status != S.Booked)
  {
    var row := s.slots[slot];
    IS.DisposeKeepsSound(s, slot, booking, release);
    if release && row.slotType == S.OpenTime && row.source == S.FromBooking {
      IF.RetireFrame(s.slots, row.court, slot, s.nextId);
    } else {
      IF.ReviseFrame(s.slots, slot, I.ReleasedAs(row, if release then S.Available else S.Unavailable));
    }
    IF.KeptIsFrom(s.slots, I.Dispose(s, slot, booking, release).value.slots, s.nextId);
  }

  lemma EndSlots(s: System, after: I.State, id: Id)
    requires IS.Sound(s.inventory) && SlotsBooked(s.inventory.slots, s.bookings)
    requires BookingIds(s.bookings, s.inventory.nextId)
    requires HoldsSpent(s.inventory.slots, s.bookings, s.inventory.nextId)
    requires id in s.bookings && s.bookings[id].status == Confirmed
    requires after.nextId == s.inventory.nextId
    requires IF.BookedSame(s.inventory.slots, after.slots, Some(s.bookings[id].slot))
    requires IF.HoldsFrom(s.inventory.slots, after.slots, s.inventory.nextId)
    requires s.bookings[id].slot in after.slots ==> after.slots[s.bookings[id].slot].status != S.Booked
    ensures var all := s.bookings[id := Ended(s.bookings[id])];
            SlotsBooked(after.slots, all) && HoldsSpent(after.slots, all, after.nextId)
  {
    var next := s.inventory.nextId;
    SlotsLose(s.inventory.slots, after.slots, s.bookings, id, next);
    HoldsOfEnded(s.inventory.slots, s.bookings, id, next);
    HoldsSpentKept(s.inventory.slots, after.slots, s.bookings[id := Ended(s.bookings[id])], next, next);
  }

  /** `next` is `s` with the booking cancelled as `x` records, and the answer kept for the call. */
  predicate CancelledAs(s: System, c: CancelCall, b: Booking, x: Cancellation, next: System) {
    var slots := I.Dispose(s.inventory, b.slot, b.id, x.released);
    var posted := B.PostCancellation(s.books, SnapshotOf(b), x.refundPercent, c.at, c.correlation);
    slots.Ok? && posted.Ok? && next == CancelledSystem(s, c, b, x, slots.value, posted.value)
  }

  lemma CancelConfirmedIs(s: System, c: CancelCall, b: Booking, policy: R.Policy)
    requires CancelConfirmed(s, c, b, policy).Ok?
    ensures !HasCancellation(s.cancellations, b.id)
    ensures CancelledAs(s, c, b, NewCancellation(s, c, b, policy), CancelConfirmed(s, c, b, policy).value.state)
  {
  }

  /** What a cancellation without a record writes. */
  lemma CancelNewIs(s: System, c: CancelCall) returns (b: Booking, cancellation: Cancellation)
    requires CancelNew(s, c).Ok?
    ensures c.booking in s.bookings && b == s.bookings[c.booking]
    ensures b.partner == Some(c.partner) && b.environment == c.environment && b.status == Confirmed
    ensures cancellation.booking == b.id && 0 <= cancellation.refundPercent <= 100
    ensures cancellation.refundAmount == R.RefundAmount(b.amounts.gross, cancellation.refundPercent)
    ensures cancellation.cancelledAt == c.at && cancellation.correlation == c.correlation && cancellation.journal == s.books.nextId
    ensures !HasCancellation(s.cancellations, b.id) && CancelledAs(s, c, b, cancellation, CancelNew(s, c).value.state)
  {
    b := s.bookings[c.booking];
    var policy := R.CancellationPolicy(b.policy, b.startsAt, c.at);
    R.PolicyInRange(b.policy, b.startsAt, c.at);
    CancelConfirmedIs(s, c, b, policy);
    cancellation := NewCancellation(s, c, b, policy);
  }

  lemma CancelNewKeeps(s: System, c: CancelCall)
    requires Inv(s) && CancelNew(s, c).Ok?
    requires FindRecord(s.records, c.partner, c.environment, c.key, CancelBooking(c.booking)) == None
    ensures Inv(CancelNew(s, c).value.state)
  {
    var b, cancellation := CancelNewIs(s, c);
    var after := I.Dispose(s.inventory, b.slot, b.id, cancellation.released).value;
    DisposeFrame(s.inventory, b.slot, b.id, cancellation.released);
    EndSlots(s, after, b.id);
    EndBooking(s.bookings, s.cancellations, s.records, s.inventory.nextId, cancellation);
    CancelLedger(s.books, s.bookings, s.cancellations, s.inventory.nextId, cancellation);
    RecordAdded(s.records, s.bookings[b.id := Ended(b)], s.cancellations + [cancellation],
                Record(c.partner, c.environment, c.key, CancelBooking(b.id), CancelHash(c), Cancelling(cancellation),
                       cancellation.cancelledAt + IDEMPOTENCY_TTL_MS));
  }

  lemma EndBooking(bookings: Bookings, cancellations: seq<Cancellation>, records: seq<Record>, next: Id, c: Cancellation)
    requires KeysUnique(bookings) && BookingIds(bookings, next) && CancellationsOk(cancellations, bookings)
    requires RecordsOk(records, bookings, cancellations)
    requires c.booking in bookings && bookings[c.booking].status == Confirmed
    ensures var all := bookings[c.booking := Ended(bookings[c.booking])];
            KeysUnique(all) && BookingIds(all, next) && CancellationsOk(cancellations + [c], all)
            && RecordsOk(records, all, cancellations + [c])
  {
    KeysOfEnded(bookings, c.booking, next);
    CancellationAdded(cancellations, bookings, c);
    RecordsOfEnded(records, bookings, cancellations, c.booking, c);
  }

  lemma CancelLedger(books: B.Books, bookings: Bookings, cancellations: seq<Cancellation>, next: Id, c: Cancellation)
    requires BI.Inv(books) && LedgerOfBookings(B.Rows(books), bookings, cancellations)
    requires BookingIds(bookings, next) && CancellationsOk(cancellations, bookings)
    requires c.booking in bookings && bookings[c.booking].status == Confirmed && bookings[c.booking].partner.Some?
    requires 0 <= c.refundPercent <= 100 && c.journal == books.nextId
    requires c.refundAmount == R.RefundAmount(bookings[c.booking].amounts.gross, c.refundPercent)
    requires B.PostCancellation(books, SnapshotOf(bookings[c.booking]), c.refundPercent, c.cancelledAt, c.correlation).Ok?
    ensures var b := bookings[c.booking];
            var after := B.PostCancellation(books, SnapshotOf(b), c.refundPercent, c.cancelledAt, c.correlation).value;
            BI.Inv(after) && LedgerOfBookings(B.Rows(after), bookings[c.booking := Ended(b)], cancellations + [c])
  {
    var b := bookings[c.booking];
    assert Journaled(B.Rows(books), b);
    CancellationPosted(books, b, c.refundPercent, c.cancelledAt, c.correlation);
    RefundPosted(B.Rows(books), b, c);
    LedgerLoses(B.Rows(books), bookings, cancellations, c,
                RefundRows(JournalOf(b), c.refundPercent, c.cancelledAt, c.correlation, c.journal), next);
  }

  // ------------------------------------------------------------ the owner's own bookings

  /** What an owner's booking writes. */
  lemma BookDirectIs(s: System, p: I.Placement, scan: seq<S.Slot>, venue: Id, correlation: string) returns (b: Booking)
    requires p.request.DirectBooking? && BookDirect(s, p, scan, venue, correlation).Ok?
    ensures I.Commit(s.inventory, p, scan).Ok?
    ensures b.id == s.inventory.nextId + 1 && b.slot == s.inventory.nextId && b.hold == None && b.partner == None && b.status == Confirmed
    ensures BookDirect(s, p, scan, venue, correlation).value
         == s.(inventory := I.Commit(s.inventory, p, scan).value, bookings := s.bookings[b.id := b])
  {
    b := BookDirect(s, p, scan, venue, correlation).value.bookings[s.inventory.nextId + 1];
  }

  /** What an owner's booking does to the slots. */
  lemma DirectCommit(s: I.State, p: I.Placement, scan: seq<S.Slot>)
    requires IS.Sound(s) && p.request.DirectBooking? && I.Possible(s, I.SCommit(p, scan)) && I.Commit(s, p, scan).Ok?
    ensures var after, id := I.Commit(s, p, scan).value, s.nextId;
            && IS.Sound(after) && after.nextId == id + 2 && id in after.slots && id !in s.slots
            && after.slots[id].id == id && after.slots[id].status == S.Booked && after.slots[id].booking == Some(id + 1)
            && IF.BookedSame(s.slots, after.slots, Some(id)) && IF.HoldsFrom(s.slots, after.slots, id)
  {
    IS.CommitOpenKeepsSound(s, p, scan);
    IF.CommitFrame(s, p, scan);
  }

  lemma DirectSlots(s: System, p: I.Placement, scan: seq<S.Slot>, b: Booking)
    requires IS.Sound(s.inventory) && SlotsBooked(s.inventory.slots, s.bookings)
    requires BookingIds(s.bookings, s.inventory.nextId)
    requires HoldsSpent(s.inventory.slots, s.bookings, s.inventory.nextId)
    requires p.request.DirectBooking? && I.Possible(s.inventory, I.SCommit(p, scan))
    requires I.Commit(s.inventory, p, scan).Ok?
    requires b.id == s.inventory.nextId + 1 && b.slot == s.inventory.nextId && b.hold == None && b.status == Confirmed
    ensures var after := I.Commit(s.inventory, p, scan).value;
            IS.Sound(after) && SlotsBooked(after.slots, s.bookings[b.id := b])
            && HoldsSpent(after.slots, s.bookings[b.id := b], after.nextId) && after.nextId == s.inventory.nextId + 2
  {
    var after := I.Commit(s.inventory, p, scan).value;
    DirectCommit(s.inventory, p, scan);
    SlotsGain(s.inventory.slots, after.slots, s.bookings, b, s.inventory.nextId);
    HoldsGain(s.inventory.slots, after.slots, s.bookings, b, s.inventory.nextId, after.nextId);
  }

  lemma BookDirectKeeps(s: System, p: I.Placement, scan: seq<S.Slot>, venue: Id, correlation: string)
    requires Inv(s) && p.request.DirectBooking? && I.Possible(s.inventory, I.SCommit(p, scan))
    requires BookDirect(s, p, scan, venue, correlation).Ok?
    ensures Inv(BookDirect(s, p, scan, venue, correlation).value)
  {
    var b := BookDirectIs(s, p, scan, venue, correlation);
    DirectSlots(s, p, scan, b);
    DocsGain(B.Rows(s.books), s.bookings, s.cancellations, s.records, s.inventory.nextId, b, 0, s.inventory.nextId + 2);
    assert B.Rows(s.books) + [] == B.Rows(s.books);
  }

  /** A booking of no partner has no rows, so ending it leaves the ledger as it is. */
  lemma DirectLedger(rows: seq<LT.Row>, bookings: Bookings, cancellations: seq<Cancellation>, c: Cancellation, next: Id)
    requires LedgerOfBookings(rows, bookings, cancellations) && BookingIds(bookings, next)
    requires c.booking in bookings && bookings[c.booking].partner == None
    requires forall k :: 0 <= k < |cancellations| ==> cancellations[k].booking != c.booking
    ensures LedgerOfBookings(rows, bookings[c.booking := Ended(bookings[c.booking])], cancellations + [c])
  {
  }

  lemma ReleaseDirectFrame(s: I.State, slot: Id, booking: Id)
    requires IS.Sound(s) && slot in s.slots && s.slots[slot].status == S.Booked && s.slots[slot].booking == Some(booking)
    ensures var after := I.ReleaseDirect(s, slot, booking);
            IS.Sound(after) && after.nextId == s.nextId && IF.BookedSame(s.slots, after.slots, Some(slot))
            && IF.HoldsFrom(s.slots, after.slots, s.nextId) && slot !in after.slots
  {
    IS.RetireKeepsSound(s, slot);
    IF.RetireFrame(s.slots, s.slots[slot].court, slot, s.nextId);
    IF.KeptIsFrom(s.slots, I.ReleaseDirect(s, slot, booking).slots, s.nextId);
  }

  lemma CancelDirectKeeps(s: System, venue: Id, id: Id, percent: int, amount: int, correlation: string, at: Time)
    requires Inv(s) && CancelDirect(s, venue, id, percent, amount, correlation, at).Ok?
    ensures Inv(CancelDirect(s, venue, id, percent, amount, correlation, at).value)
  {
    var b := s.bookings[id];
    var c := Cancellation(id, percent, amount, true, "", at, correlation, s.books.nextId);
    assert HasSlot(b, s.inventory.slots);
    ReleaseDirectFrame(s.inventory, b.slot, id);
    EndSlots(s, I.ReleaseDirect(s.inventory, b.slot, id), id);
    EndBooking(s.bookings, s.cancellations, s.records, s.inventory.nextId, c);
    DirectLedger(B.Rows(s.books), s.bookings, s.cancellations, c, s.inventory.nextId);
  }

  // ------------------------------------------------------------------- expiring records

  lemma {:induction false} LiveRecords(records: seq<Record>, now: Time)
    ensures forall r :: r in Live(records, now) <==> r in records && r.expiresAt > now
  {
    if records != [] {
      LiveRecords(records[..|records| - 1], now);
      assert records == records[..|records| - 1] + [records[|records| - 1]];
    }
  }

  lemma {:induction false} SweepKeepsRecords(records: seq<Record>, now: Time, bookings: Bookings,
                                             cancellations: seq<Cancellation>)
    requires RecordsOk(records, bookings, cancellations)
    ensures RecordsOk(Live(records, now), bookings, cancellations)
  {
    if records != [] {
      var init, last := records[..|records| - 1], records[|records| - 1];
      assert forall k :: 0 <= k < |init| ==> init[k] == records[k];
      SweepKeepsRecords(init, now, bookings, cancellations);
      LiveRecords(init, now);
      var rest := Live(init, now);
      forall k | 0 <= k < |rest|
        ensures !SameAnswer(rest[k], last)
      {
        assert rest[k] in rest;
        var m :| 0 <= m < |init| && init[m] == rest[k];
        assert !SameAnswer(records[m], records[|records| - 1]);
      }
    }
  }

  // -------------------------------------------------------------------------- every step

  lemma ConfirmKeeps(s: System, c: ConfirmCall)
    requires Inv(s) && Confirm(s, c).Ok?
    ensures Inv(Confirm(s, c).value.state)
  {
    if FindRecord(s.records, c.partner, c.environment, c.key, ConfirmBooking) == None {
      ConfirmNewKeeps(s, c);
    }
  }

  lemma CancelKeeps(s: System, c: CancelCall)
    requires Inv(s) && Cancel(s, c).Ok?
    ensures Inv(Cancel(s, c).value.state)
  {
    if FindRecord(s.records, c.partner, c.environment, c.key, CancelBooking(c.booking)) == None {
      CancelNewKeeps(s, c);
    }
  }

  lemma StepKeeps(s: System, step: Step)
    requires Inv(s) && Possible(s, step)
    ensures Inv(After(s, step))
  {
    match step
    case Inventory(i) => InventoryKeeps(s, i);
    case Finances(c) => FinanceKeeps(s, c);
    case SConfirm(c) => if Confirm(s, c).Ok? { ConfirmKeeps(s, c); }
    case SCancel(c) => if Cancel(s, c).Ok? { CancelKeeps(s, c); }
    case SBookDirect(p, scan, venue, correlation) =>
      if BookDirect(s, p, scan, venue, correlation).Ok? { BookDirectKeeps(s, p, scan, venue, correlation); }
    case SCancelDirect(venue, id, percent, amount, correlation, at) =>
      if CancelDirect(s, venue, id, percent, amount, correlation, at).Ok? { CancelDirectKeeps(s, venue, id, percent, amount, correlation, at); }
    case Sweep => SweepKeepsRecords(s.records, s.inventory.clock, s.bookings, s.cancellations);
  }
}
