/**
 The booking lifecycle as it runs: `confirm` and `cancel` write slot, booking, ledger and
 record one after another inside a transaction, and leave nothing behind when a step throws.
 */
module BookingStore {
  import opened Base
  import opened Lifecycle
  import R = Refunds
  import B = Books
  import I = Inventory
  import LI = LifecycleInvariant

  /** Which write of a cancellation fails first, if any. */
  lemma CancelDecided(s: System, c: CancelCall, b: Booking, policy: R.Policy, x: Cancellation)
    requires x == NewCancellation(s, c, b, policy)
    ensures var slots, r := I.Dispose(s.inventory, b.slot, b.id, x.released), CancelConfirmed(s, c, b, policy);
            if slots.Err? then r == Err(SlotConflict(slots.error))
            else
              var posted := B.PostCancellation(s.books, SnapshotOf(b), x.refundPercent, x.cancelledAt, c.correlation);
              if HasCancellation(s.cancellations, x.booking) then r == Err(DuplicateCancellation)
              else if posted.Err? then r == Err(Finance(posted.error))
              else r == Ok(Outcome(CancelledSystem(s, c, b, x, slots.value, posted.value), Cancelling(x)))
  {
  }

  /** The writes of a cancellation, field by field. */
  lemma WrittenIs(s: System, c: CancelCall, b: Booking, x: Cancellation, t: System)
    requires t.bookings == s.bookings[b.id := b.(status := Cancelled)] && t.cancellations == s.cancellations + [x]
    requires t.records == s.records + [Record(c.partner, c.environment, c.key, CancelBooking(b.id), CancelHash(c), Cancelling(x),
                                              x.cancelledAt + IDEMPOTENCY_TTL_MS)]
    ensures t == CancelledSystem(s, c, b, x, t.inventory, t.books)
  {
  }

  class Store {
    var inventory: I.State
    var books: B.Books
    var bookings: map<Id, Booking>
    var cancellations: seq<Cancellation>
    var records: seq<Record>

    ghost function View(): (s: System)
      reads this
    {
      System(inventory, books, bookings, cancellations, records)
    }

    constructor (courts: map<Id, nat>, clock: Time)
      ensures View() == System(I.State(map[], courts, 0, clock, {}, {}), B.EMPTY, map[], [], [])
    {
      inventory, books := I.State(map[], courts, 0, clock, {}, {}), B.EMPTY;
      bookings, cancellations, records := map[], [], [];
    }

    /** `getIdempotency`. */
    method GetIdempotency(partner: Id, environment: Environment, key: string,
                          operation: Operation) returns (record: Option<Record>)
      ensures record == FindRecord(records, partner, environment, key, operation)
    {
      for k := 0 to |records|
        invariant FindRecord(records, partner, environment, key, operation)
               == FindRecord(records[k..], partner, environment, key, operation)
      {
        assert records[k..][1..] == records[k + 1..];
        if RecordFor(records[k], partner, environment, key, operation) { return Some(records[k]); }
      }
      return None;
    }

    /** Put everything back as it was when the transaction began. */
    method Rollback(before: System)
      modifies this
      ensures View() == before
    {
      inventory, books, bookings, cancellations, records :=
        before.inventory, before.books, before.bookings, before.cancellations, before.records;
    }

    /** The transaction of `confirm` after the idempotency check. */
    method ConfirmHold(c: ConfirmCall) returns (error: Option<LifecycleError>, response: Option<Response>)
      modifies this
      ensures var r := ConfirmNew(old(View()), c);
              if r.Ok? then error == None && response == Some(r.value.response) && View() == r.value.state
              else error == Some(r.error) && View() == old(View())
    {
      var before := System(inventory, books, bookings, cancellations, records);
      response := None;
      if !I.Confirmable(inventory, c.slot, c.hold, c.partner, c.environment, c.at) { return Some(HoldNotActive), None; }
      var row := inventory.slots[c.slot];
      if row.price == None { return Some(BookingPriceMissing), None; }
      if c.context == None { return Some(NotBookable), None; }
      var booking := NewBooking(before, c, row.price.value, c.context.value, row);
      inventory := I.Confirm(inventory, c.slot, c.hold, c.partner, c.environment, c.at).value;
      if KeyTaken(bookings, c.partner, c.environment, c.key) {
        Rollback(before);
        return Some(DuplicateConfirmation), None;
      }
      bookings := bookings[booking.id := booking];
      var posted := B.PostBooking(books, SnapshotOf(booking), c.at, c.correlation);
      if posted.Err? {
        Rollback(before);
        return Some(Finance(posted.error)), None;
      }
      books := posted.value;
      response := Some(Confirmation(booking));
      records := records + [Record(c.partner, c.environment, c.key, ConfirmBooking, ConfirmHash(c), response.value,
                                   c.at + IDEMPOTENCY_TTL_MS)];
      error := None;
    }

    method ConfirmBookingOf(c: ConfirmCall) returns (error: Option<LifecycleError>, response: Option<Response>)
      modifies this
      ensures var r := Confirm(old(View()), c);
              if r.Ok? then error == None && response == Some(r.value.response) && View() == r.value.state
              else error == Some(r.error) && View() == old(View())
    {
      var existing := GetIdempotency(c.partner, c.environment, c.key, ConfirmBooking);
      if existing.Some? {
        if existing.value.request != ConfirmHash(c) { return Some(IdempotencyKeyReused), None; }
        return None, Some(existing.value.response);
      }
      error, response := ConfirmHold(c);
    }

    /** `insertCancellation`, under its unique index on the booking. */
    method InsertCancellation(cancellation: Cancellation) returns (inserted: bool)
      modifies this`cancellations
      ensures inserted <==> !HasCancellation(old(cancellations), cancellation.booking)
      ensures cancellations == if inserted then old(cancellations) + [cancellation] else old(cancellations)
    {
      for k := 0 to |cancellations|
        invariant cancellations == old(cancellations)
        invariant forall m :: 0 <= m < k ==> cancellations[m].booking != cancellation.booking
      {
        if cancellations[k].booking == cancellation.booking { return false; }
      }
      cancellations := cancellations + [cancellation];
      return true;
    }

    /** The writes of `cancel` after the booking's and the slot's: cancellation, ledger, record. */
    method RecordCancellation(c: CancelCall, b: Booking, x: Cancellation) returns (error: Option<LifecycleError>)
      modifies this`cancellations, this`books, this`records
      ensures var posted := B.PostCancellation(old(books), SnapshotOf(b), x.refundPercent, x.cancelledAt, c.correlation);
              if HasCancellation(old(cancellations), x.booking) then error == Some(DuplicateCancellation)
              else if posted.Err? then error == Some(Finance(posted.error))
              else error == None && books == posted.value && cancellations == old(cancellations) + [x]
                   && records == old(records) + [Record(c.partner, c.environment, c.key, CancelBooking(b.id), CancelHash(c), Cancelling(x),
                                                        x.cancelledAt + IDEMPOTENCY_TTL_MS)]
    {
      var inserted := InsertCancellation(x);
      if !inserted { return Some(DuplicateCancellation); }
      var posted := B.PostCancellation(books, SnapshotOf(b), x.refundPercent, x.cancelledAt, c.correlation);
      if posted.Err? { return Some(Finance(posted.error)); }
      books := posted.value;
      records := records + [Record(c.partner, c.environment, c.key, CancelBooking(b.id), CancelHash(c), Cancelling(x),
                                   x.cancelledAt + IDEMPOTENCY_TTL_MS)];
      return None;
    }

    /** The writes of `cancel`, one after another; what is left of them when one fails is for the caller to undo. */
    method TryCancel(c: CancelCall, b: Booking, x: Cancellation) returns (error: Option<LifecycleError>)
      modifies this
      ensures var slots := I.Dispose(old(inventory), b.slot, b.id, x.released);
              if slots.Err? then error == Some(SlotConflict(slots.error))
              else
                var posted := B.PostCancellation(old(books), SnapshotOf(b), x.refundPercent, x.cancelledAt, c.correlation);
                if HasCancellation(old(cancellations), x.booking) then error == Some(DuplicateCancellation)
                else if posted.Err? then error == Some(Finance(posted.error))
                else error == None && inventory == slots.value && books == posted.value
                     && bookings == old(bookings)[b.id := b.(status := Cancelled)] && cancellations == old(cancellations) + [x]
                     && records == old(records) + [Record(c.partner, c.environment, c.key, CancelBooking(b.id), CancelHash(c), Cancelling(x),
                                                          x.cancelledAt + IDEMPOTENCY_TTL_MS)]
    {
      bookings := bookings[b.id := b.(status := Cancelled)];
      var slots := I.Dispose(inventory, b.slot, b.id, x.released);
      if slots.Err? { return Some(SlotConflict(slots.error)); }
      inventory := slots.value;
      error := RecordCancellation(c, b, x);
    }

    /** The transaction of `cancel` for a booking that may be cancelled. */
    method CancelBookingUnder(before: System, c: CancelCall, b: Booking, policy: R.Policy)
      returns (error: Option<LifecycleError>, response: Option<Response>)
      requires before == View()
      modifies this
      ensures var r := CancelConfirmed(before, c, b, policy);
              if r.Ok? then error == None && response == Some(r.value.response) && View() == r.value.state
              else error == Some(r.error) && View() == before
    {
      var x := NewCancellation(before, c, b, policy);
      error := TryCancel(c, b, x);
      response := None;
      CancelDecided(before, c, b, policy, x);
      if error.Some? {
        Rollback(before);
      } else {
        WrittenIs(before, c, b, x, View());
        response := Some(Cancelling(x));
      }
    }

    method CancelBookingOf(c: CancelCall) returns (error: Option<LifecycleError>, response: Option<Response>)
      modifies this
      ensures var r := Cancel(old(View()), c);
              if r.Ok? then error == None && response == Some(r.value.response) && View() == r.value.state
              else error == Some(r.error) && View() == old(View())
    {
      var existing := GetIdempotency(c.partner, c.environment, c.key, CancelBooking(c.booking));
      if existing.Some? {
        if existing.value.request != CancelHash(c) { return Some(IdempotencyKeyReused), None; }
        return None, Some(existing.value.response);
      }
      if c.booking !in bookings || bookings[c.booking].partner != Some(c.partner) || bookings[c.booking].environment != c.environment {
        return Some(BookingNotFound), None;
      }
      var b := bookings[c.booking];
      if b.status != Confirmed { return Some(BookingNotCancellable), None; }
      var policy := R.CancellationPolicy(b.policy, b.startsAt, c.at);
      if !policy.allowed { return Some(CancellationNotAllowed), None; }
      error, response := CancelBookingUnder(System(inventory, books, bookings, cancellations, records), c, b, policy);
    }

    /** The TTL index at work. */
    method SweepRecords()
      modifies this`records
      ensures records == Live(old(records), inventory.clock)
      ensures forall r :: r in records <==> r in old(records) && r.expiresAt > inventory.clock
    {
      var kept: seq<Record> := [];
      for k := 0 to |records|
        invariant kept == Live(records[..k], inventory.clock)
      {
        assert records[..k + 1][..k] == records[..k];
        if records[k].expiresAt > inventory.clock { kept := kept + [records[k]]; }
      }
      assert records[..|records|] == records;
      LI.LiveRecords(records, inventory.clock);
      records := kept;
    }
  }
}
