/**
 What the life of a booking guarantees over every run: cancelling always succeeds on the
 ledger, retries never act twice, and every booking has exactly its own rows.
 */
module LifecycleTheorems {
  import opened Base
  import opened Money
  import opened Lifecycle
  import opened LifecycleInvariant
  import opened Traces
  import LT = LedgerTypes
  import L = Ledger
  import R = Refunds
  import A = Aggregates
  import B = Books
  import BI = BooksInvariant
  import S = Slots
  import I = Inventory
  import II = InventoryInvariant

  // ---------------------------------------------------------------------------- runs

  predicate Leads(s: System, step: Step, t: System) {
    Possible(s, step) && t == After(s, step)
  }

  /** `run` lists the states that `steps` lead through, each step possible where it happens. */
  predicate Path(run: seq<System>, steps: seq<Step>) {
    |run| == |steps| + 1 && forall n :: 0 <= n < |steps| ==> Leads(run[n], steps[n], run[n + 1])
  }

  function Start(courts: map<Id, nat>, clock: Time): System {
    System(I.State(map[], courts, 0, clock, {}, {}), B.EMPTY, map[], [], [])
  }

  /** What a later state still has of an earlier one: its bookings, at most cancelled since, and its unexpired answers. */
  predicate Continues(s: System, t: System) {
    && s.inventory.clock <= t.inventory.clock
    && (forall b :: b in s.bookings ==> b in t.bookings && (t.bookings[b] == s.bookings[b] || t.bookings[b] == Ended(s.bookings[b])))
    && (forall r :: r in s.records && r.expiresAt > t.inventory.clock ==> r in t.records)
  }

  lemma ContinuesTransitive(s: System, t: System, u: System)
    requires Continues(s, t) && Continues(t, u)
    ensures Continues(s, u)
  {
  }

  lemma InventoryContinues(s: System, i: I.Step)
    requires I.Possible(s.inventory, i)
    ensures Continues(s, s.(inventory := I.After(s.inventory, i)))
  {
  }

  lemma ConfirmContinues(s: System, c: ConfirmCall)
    requires BookingIds(s.bookings, s.inventory.nextId) && ConfirmNew(s, c).Ok?
    ensures Continues(s, ConfirmNew(s, c).value.state)
  {
    var b := ConfirmNewIs(s, c);
  }

  lemma CancelledContinues(s: System, c: CancelCall, b: Booking, x: Cancellation, slots: I.State, books: B.Books)
    requires b.id in s.bookings && s.bookings[b.id] == b && slots.clock == s.inventory.clock
    ensures Continues(s, CancelledSystem(s, c, b, x, slots, books))
  {
  }

  lemma DisposeClock(s: I.State, slot: Id, booking: Id, release: bool)
    requires I.Dispose(s, slot, booking, release).Ok?
    ensures I.Dispose(s, slot, booking, release).value.clock == s.clock
  {
  }

  lemma CancelContinues(s: System, c: CancelCall)
    requires BookingIds(s.bookings, s.inventory.nextId) && CancelNew(s, c).Ok?
    ensures Continues(s, CancelNew(s, c).value.state)
  {
    var b, x := CancelNewIs(s, c);
    DisposeClock(s.inventory, b.slot, b.id, x.released);
    CancelledContinues(s, c, b, x, I.Dispose(s.inventory, b.slot, b.id, x.released).value,
                       B.PostCancellation(s.books, SnapshotOf(b), x.refundPercent, c.at, c.correlation).value);
  }

  lemma DirectContinues(s: System, p: I.Placement, scan: seq<S.Slot>, venue: Id, correlation: string)
    requires BookingIds(s.bookings, s.inventory.nextId) && p.request.DirectBooking?
    requires BookDirect(s, p, scan, venue, correlation).Ok?
    ensures Continues(s, BookDirect(s, p, scan, venue, correlation).value)
  {
    II.CommitOpenIs(s.inventory, p, scan);
  }

  lemma SweepContinues(s: System)
    ensures Continues(s, s.(records := Live(s.records, s.inventory.clock)))
  {
    LiveRecords(s.records, s.inventory.clock);
  }

  lemma StepContinues(s: System, step: Step)
    requires BookingIds(s.bookings, s.inventory.nextId) && Possible(s, step)
    ensures Continues(s, After(s, step))
  {
    match step
    case Inventory(i) => InventoryContinues(s, i);
    case Finances(c) =>
    case SConfirm(c) => if ConfirmNew(s, c).Ok? { ConfirmContinues(s, c); }
    case SCancel(c) => if CancelNew(s, c).Ok? { CancelContinues(s, c); }
    case SBookDirect(p, scan, venue, correlation) =>
      if BookDirect(s, p, scan, venue, correlation).Ok? { DirectContinues(s, p, scan, venue, correlation); }
    case SCancelDirect(venue, id, percent, amount, correlation, at) =>
    case Sweep => SweepContinues(s);
  }

  lemma StepOn(s: System, before: System, step: Step, after: System)
    requires Inv(before) && Continues(s, before) && Leads(before, step, after)
    ensures Inv(after) && Continues(s, after)
  {
    StepKeeps(before, step);
    StepContinues(before, step);
    ContinuesTransitive(s, before, after);
  }

  lemma {:induction false} RunContinues(run: seq<System>, steps: seq<Step>)
    requires Path(run, steps) && Inv(run[0])
    ensures Inv(run[|steps|]) && Continues(run[0], run[|steps|])
  {
    if steps != [] {
      var n := |steps| - 1;
      RunContinues(run[..n + 1], steps[..n]);
      StepOn(run[0], run[n], steps[n], run[n + 1]);
    }
  }

  lemma StartInv(courts: map<Id, nat>, clock: Time)
    ensures Inv(Start(courts, clock))
  {
  }

  // --------------------------------------------------------- cancelling always succeeds

  lemma NoCancellationYet(cancellations: seq<Cancellation>, bookings: Bookings, b: Id)
    requires CancellationsOk(cancellations, bookings) && b in bookings && bookings[b].status == Confirmed
    ensures !HasCancellation(cancellations, b)
  {
  }

  /** On a confirmed partner booking the ledger side of a cancellation succeeds and posts exactly the recorded refund. */
  lemma LedgerCancels(books: B.Books, b: Booking, percent: nat, at: Time, correlation: string)
    requires BI.Inv(books) && Journaled(B.Rows(books), b) && b.status == Confirmed && b.partner.Some?
    requires percent <= 100 && correlation != ""
    ensures B.PostCancellation(books, SnapshotOf(b), percent, at, correlation).Ok?
    ensures L.CancellationPosting(B.Rows(books), SnapshotOf(b), percent, at, correlation, books.nextId)
         == Ok(RefundRows(JournalOf(b), percent, at, correlation, books.nextId))
  {
    A.FlattenShaped(books.batches);
    BookingJournal(SnapshotOf(b), b.confirmedAt, b.correlation, b.journal);
    RefundPosts(B.Rows(books), SnapshotOf(b), JournalOf(b), percent, at, correlation, books.nextId);
  }

  lemma CancelGoesThrough(s: System, c: CancelCall, b: Booking, policy: R.Policy)
    requires BI.Inv(s.books) && Journaled(B.Rows(s.books), b) && HasSlot(b, s.inventory.slots)
    requires !HasCancellation(s.cancellations, b.id) && b.status == Confirmed && b.partner.Some?
    requires 0 <= policy.refundPercent <= 100 && c.correlation != ""
    ensures CancelConfirmed(s, c, b, policy).Ok?
  {
    LedgerCancels(s.books, b, policy.refundPercent, c.at, c.correlation);
  }

  /**
   A cancellation that was not answered before goes through exactly when the booking is the
   partner's, confirmed, and its policy allows cancelling: neither the slot nor the ledger
   nor the unique indexes can stop it.
   */
  lemma CancelSucceeds(s: System, c: CancelCall)
    requires Inv(s) && c.correlation != ""
    ensures CancelNew(s, c).Ok?
       <==> c.booking in s.bookings && s.bookings[c.booking].partner == Some(c.partner)
            && s.bookings[c.booking].environment == c.environment && s.bookings[c.booking].status == Confirmed
            && R.CancellationPolicy(s.bookings[c.booking].policy, s.bookings[c.booking].startsAt, c.at).allowed
  {
    if c.booking in s.bookings && s.bookings[c.booking].partner.Some? && s.bookings[c.booking].status == Confirmed {
      var b := s.bookings[c.booking];
      var policy := R.CancellationPolicy(b.policy, b.startsAt, c.at);
      R.PolicyInRange(b.policy, b.startsAt, c.at);
      NoCancellationYet(s.cancellations, s.bookings, c.booking);
      CancelGoesThrough(s, c, b, policy);
    }
  }

  lemma ConfirmDecides(s: System, c: ConfirmCall, price: int, context: Context)
    requires I.Confirmable(s.inventory, c.slot, c.hold, c.partner, c.environment, c.at)
    requires s.inventory.slots[c.slot].price == Some(price) && c.context == Some(context)
    ensures ConfirmNew(s, c).Ok?
       <==> !KeyTaken(s.bookings, c.partner, c.environment, c.key)
            && B.PostBooking(s.books, SnapshotOf(NewBooking(s, c, price, context, s.inventory.slots[c.slot])),
                             c.at, c.correlation).Ok?
  {
  }

  /**
   A live hold with a price is confirmed exactly when the key is new and the two shares do
   not both round up to more than the price.
   */
  lemma ConfirmSucceeds(s: System, c: ConfirmCall, price: nat, context: Context)
    requires I.Confirmable(s.inventory, c.slot, c.hold, c.partner, c.environment, c.at) && c.correlation != ""
    requires s.inventory.slots[c.slot].price == Some(price) && price <= MAX_SAFE
    requires c.context == Some(context) && R.RatesValid(context.rates)
    ensures ConfirmNew(s, c).Ok? <==> !KeyTaken(s.bookings, c.partner, c.environment, c.key) && !R.BothRoundUp(price, context.rates)
  {
    var row := s.inventory.slots[c.slot];
    var b := NewBooking(s, c, price, context, row);
    assert SnapshotOf(b)
        == R.SnapshotOf(b.id, c.partner, context.venue, context.contract, c.environment, R.CalculateAmounts(price, context.rates));
    R.ConfirmationPosts(b.id, c.partner, context.venue, context.contract, c.environment, price, context.rates,
                        c.at, c.correlation, s.books.nextId);
    ConfirmDecides(s, c, price, context);
  }

  // -------------------------------------------------------------- retries act only once

  lemma RecordFound(s: System, r: Record)
    requires RecordsOk(s.records, s.bookings, s.cancellations) && r in s.records
    ensures FindRecord(s.records, r.partner, r.environment, r.key, r.operation) == Some(r)
  {
  }

  function ConfirmRecord(s: System, c: ConfirmCall, response: Response): Record {
    Record(c.partner, c.environment, c.key, ConfirmBooking, ConfirmHash(c), response, c.at + IDEMPOTENCY_TTL_MS)
  }

  /** The call is new: no record answers it. */
  predicate Unanswered(s: System, c: ConfirmCall) {
    FindRecord(s.records, c.partner, c.environment, c.key, ConfirmBooking) == None
  }

  lemma ConfirmedState(s: System, c: ConfirmCall) returns (b: Booking)
    requires ConfirmNew(s, c).Ok? && Unanswered(s, c)
    ensures var t := Confirm(s, c).value.state;
            b.id in t.bookings && t.bookings[b.id] == b && b.hold == Some(c.hold)
            && ConfirmRecord(s, c, Confirmation(b)) in t.records && Confirm(s, c).value.response == Confirmation(b)
  {
    b := ConfirmNewIs(s, c);
  }

  /** A booking and an unexpired answer are still there in every later state. */
  lemma StillThere(s: System, t: System, b: Id, r: Record)
    requires Continues(s, t) && b in s.bookings && r in s.records
    ensures b in t.bookings && t.bookings[b].hold == s.bookings[b].hold
    ensures t.inventory.clock < r.expiresAt ==> r in t.records
  {
  }

  /** What a confirmation leaves for every later state. */
  lemma ConfirmedLater(s: System, c: ConfirmCall, run: seq<System>, steps: seq<Step>) returns (b: Booking)
    requires Inv(s) && ConfirmNew(s, c).Ok? && Unanswered(s, c)
    requires Path(run, steps) && run[0] == Confirm(s, c).value.state
    ensures var t := run[|steps|];
            && Inv(t) && b.id in t.bookings && t.bookings[b.id].hold == Some(c.hold)
            && Confirm(s, c).value.response == Confirmation(b)
            && (t.inventory.clock < c.at + IDEMPOTENCY_TTL_MS ==> ConfirmRecord(s, c, Confirmation(b)) in t.records)
  {
    b := ConfirmedState(s, c);
    ConfirmKeeps(s, c);
    RunContinues(run, steps);
    StillThere(run[0], run[|steps|], b.id, ConfirmRecord(s, c, Confirmation(b)));
  }

  /**
   While its record lives, a confirmation repeated after any other steps gets the stored
   answer and changes nothing, and another request under the same key is refused.
   */
  lemma ReplayedWithinTtl(s: System, c: ConfirmCall, run: seq<System>, steps: seq<Step>, again: ConfirmCall)
    requires Inv(s) && ConfirmNew(s, c).Ok? && Unanswered(s, c)
    requires Path(run, steps) && run[0] == Confirm(s, c).value.state
    requires run[|steps|].inventory.clock < c.at + IDEMPOTENCY_TTL_MS
    requires again.partner == c.partner && again.environment == c.environment && again.key == c.key
    ensures Confirm(run[|steps|], again)
         == if ConfirmHash(again) == ConfirmHash(c) then Ok(Outcome(run[|steps|], Confirm(s, c).value.response))
            else Err(IdempotencyKeyReused)
  {
    var b := ConfirmedLater(s, c, run, steps);
    RecordFound(run[|steps|], ConfirmRecord(s, c, Confirmation(b)));
  }

  lemma SpentHold(t: System, b: Id, c: ConfirmCall)
    requires b in t.bookings && t.bookings[b].hold == Some(c.hold)
    requires HoldSpent(t.bookings[b], t.inventory.slots, t.inventory.nextId)
    ensures ConfirmNew(t, c) == Err(HoldNotActive)
    ensures Confirm(t, c).Ok? ==> Confirm(t, c).value.state == t
  {
  }

  /** Long after its record expired, under any key, a hold that was confirmed makes no second booking. */
  lemma HoldConfirmedOnce(s: System, c: ConfirmCall, run: seq<System>, steps: seq<Step>, again: ConfirmCall)
    requires Inv(s) && ConfirmNew(s, c).Ok? && Unanswered(s, c)
    requires Path(run, steps) && run[0] == Confirm(s, c).value.state
    requires again.hold == c.hold
    ensures Confirm(run[|steps|], again).Ok? ==> Confirm(run[|steps|], again).value.state == run[|steps|]
  {
    var b := ConfirmedLater(s, c, run, steps);
    SpentHold(run[|steps|], b.id, again);
  }

  predicate UnansweredCancel(s: System, c: CancelCall) {
    FindRecord(s.records, c.partner, c.environment, c.key, CancelBooking(c.booking)) == None
  }

  function CancelRecord(c: CancelCall, response: Response): Record {
    Record(c.partner, c.environment, c.key, CancelBooking(c.booking), CancelHash(c), response, c.at + IDEMPOTENCY_TTL_MS)
  }

  lemma CancelledState(s: System, c: CancelCall) returns (x: Cancellation)
    requires CancelNew(s, c).Ok? && UnansweredCancel(s, c) && BookingIds(s.bookings, s.inventory.nextId)
    ensures var t := Cancel(s, c).value.state;
            c.booking in t.bookings && t.bookings[c.booking].status == Cancelled
            && CancelRecord(c, Cancelling(x)) in t.records && Cancel(s, c).value.response == Cancelling(x)
  {
    var b;
    b, x := CancelNewIs(s, c);
    AnsweredAs(s, c, b, x);
  }

  lemma AnsweredAs(s: System, c: CancelCall, b: Booking, x: Cancellation)
    requires CancelNew(s, c).Ok? && c.booking in s.bookings && b == s.bookings[c.booking] && b.id == c.booking
    requires CancelledAs(s, c, b, x, CancelNew(s, c).value.state) && x.cancelledAt == c.at
    ensures CancelRecord(c, Cancelling(x)) in CancelNew(s, c).value.state.records
    ensures CancelNew(s, c).value.response == Cancelling(x)
  {
    var t := CancelNew(s, c).value.state;
    assert t.records[|s.records|] == CancelRecord(c, Cancelling(x));
    assert t.cancellations[|s.cancellations|] == x;
  }

  lemma CancelAgain(t: System, c: CancelCall)
    requires c.booking in t.bookings && t.bookings[c.booking].status == Cancelled
    ensures Cancel(t, c).Ok? ==> Cancel(t, c).value.state == t
  {
  }

  lemma StaysCancelled(s: System, t: System, b: Id)
    requires Continues(s, t) && b in s.bookings && s.bookings[b].status == Cancelled
    ensures b in t.bookings && t.bookings[b].status == Cancelled
  {
  }

  /** A cancelled booking is cancelled once: every later attempt, under any key, changes nothing. */
  lemma CancelledOnce(s: System, c: CancelCall, run: seq<System>, steps: seq<Step>, again: CancelCall)
    requires Inv(s) && CancelNew(s, c).Ok? && UnansweredCancel(s, c)
    requires Path(run, steps) && run[0] == Cancel(s, c).value.state
    requires again.booking == c.booking
    ensures Cancel(run[|steps|], again).Ok? ==> Cancel(run[|steps|], again).value.state == run[|steps|]
  {
    var x := CancelledState(s, c);
    CancelKeeps(s, c);
    RunContinues(run, steps);
    StaysCancelled(run[0], run[|steps|], c.booking);
    CancelAgain(run[|steps|], again);
  }

  /** What a cancellation leaves for every later state while its record lives. */
  lemma CancelledLater(s: System, c: CancelCall, run: seq<System>, steps: seq<Step>) returns (r: Record)
    requires Inv(s) && CancelNew(s, c).Ok? && UnansweredCancel(s, c)
    requires Path(run, steps) && run[0] == Cancel(s, c).value.state
    requires run[|steps|].inventory.clock < c.at + IDEMPOTENCY_TTL_MS
    ensures Inv(run[|steps|]) && r == CancelRecord(c, Cancel(s, c).value.response) && r in run[|steps|].records
  {
    var x := CancelledState(s, c);
    r := CancelRecord(c, Cancelling(x));
    CancelKeeps(s, c);
    RunContinues(run, steps);
    StillThere(run[0], run[|steps|], c.booking, r);
  }

  /**
   While its record lives, a cancellation repeated after any other steps gets the stored
   answer and changes nothing, and another request under the same key for the same booking
   is refused.
   */
  lemma CancelReplayedWithinTtl(s: System, c: CancelCall, run: seq<System>, steps: seq<Step>, again: CancelCall)
    requires Inv(s) && CancelNew(s, c).Ok? && UnansweredCancel(s, c)
    requires Path(run, steps) && run[0] == Cancel(s, c).value.state
    requires run[|steps|].inventory.clock < c.at + IDEMPOTENCY_TTL_MS
    requires again.partner == c.partner && again.environment == c.environment && again.key == c.key && again.booking == c.booking
    ensures Cancel(run[|steps|], again)
         == if CancelHash(again) == CancelHash(c) then Ok(Outcome(run[|steps|], Cancel(s, c).value.response))
            else Err(IdempotencyKeyReused)
  {
    var r := CancelledLater(s, c, run, steps);
    RecordFound(run[|steps|], r);
  }

  // ------------------------------------------------------- one booking, one journal

  /** At most one booking per hold and per partner, environment and key, over every run. */
  lemma OneBookingEach(courts: map<Id, nat>, clock: Time, run: seq<System>, steps: seq<Step>, a: Id, b: Id)
    requires Path(run, steps) && run[0] == Start(courts, clock)
    requires var bookings := run[|steps|].bookings;
             a in bookings && b in bookings && bookings[a].partner.Some?
             && ((bookings[a].hold.Some? && bookings[a].hold == bookings[b].hold) || SameKey(bookings[a], bookings[b]))
    ensures a == b
  {
    StartInv(courts, clock);
    RunContinues(run, steps);
  }

  /**
   Over every run, whatever settlements and payouts have done to its rows: a partner booking
   has exactly its confirmation journal; unless it was cancelled it has no refund, and if it
   was, exactly the refund that its one cancellation records.
   */
  lemma BookingAccounts(courts: map<Id, nat>, clock: Time, run: seq<System>, steps: seq<Step>,
                        id: Id) returns (k: Option<nat>)
    requires Path(run, steps) && run[0] == Start(courts, clock) && id in run[|steps|].bookings
    ensures var s := run[|steps|];
            var b, rows := s.bookings[id], B.Rows(s.books);
            Trace(rows, id, Confirmations) == JournalOf(b)
            && match k
               case None => b.status == Confirmed && Trace(rows, id, Refunds) == [] && !HasCancellation(s.cancellations, id)
               case Some(n) =>
                 n < |s.cancellations| && s.cancellations[n].booking == id && b.status == Cancelled
                 && (forall m :: 0 <= m < |s.cancellations| && s.cancellations[m].booking == id ==> m == n)
                 && Refunded(rows, b, s.cancellations[n])
  {
    StartInv(courts, clock);
    RunContinues(run, steps);
    var s := run[|steps|];
    assert Journaled(B.Rows(s.books), s.bookings[id]);
    k := AccountsIn(B.Rows(s.books), s.bookings, s.cancellations, id);
  }

  lemma AccountsIn(rows: seq<LT.Row>, bookings: Bookings, cancellations: seq<Cancellation>, id: Id) returns (k: Option<nat>)
    requires CancellationsOk(cancellations, bookings) && AllRefunded(rows, bookings, cancellations) && id in bookings
    ensures k == None ==> bookings[id].status == Confirmed && !HasCancellation(cancellations, id)
    ensures k.Some? ==>
              k.value < |cancellations| && cancellations[k.value].booking == id && bookings[id].status == Cancelled
              && (forall m :: 0 <= m < |cancellations| && cancellations[m].booking == id ==> m == k.value)
              && Refunded(rows, bookings[id], cancellations[k.value])
  {
    if bookings[id].status == Confirmed {
      NoCancellationYet(cancellations, bookings, id);
      k := None;
    } else {
      assert HasCancellation(cancellations, id);
      var n :| 0 <= n < |cancellations| && cancellations[n].booking == id;
      k := Some(n);
    }
  }

  /** A confirmed booking's slot is booked by it, and every booked slot has its one confirmed booking. */
  lemma SlotsAndBookings(courts: map<Id, nat>, clock: Time, run: seq<System>, steps: seq<Step>, id: Id, slot: Id)
    requires Path(run, steps) && run[0] == Start(courts, clock)
    ensures var s := run[|steps|];
            (id in s.bookings && s.bookings[id].status == Confirmed && s.bookings[id].slot == slot)
            <==> (slot in s.inventory.slots && s.inventory.slots[slot].status == S.Booked && s.inventory.slots[slot].booking == Some(id))
  {
    StartInv(courts, clock);
    RunContinues(run, steps);
    var s := run[|steps|];
    BookedPairs(s.inventory.slots, s.bookings, s.inventory.nextId, id, slot);
  }

  lemma BookedPairs(slots: S.Table, bookings: Bookings, next: Id, id: Id, slot: Id)
    requires SlotsBooked(slots, bookings) && BookingIds(bookings, next) && II.TableOk(slots, next)
    ensures (id in bookings && bookings[id].status == Confirmed && bookings[id].slot == slot)
       <==> (slot in slots && slots[slot].status == S.Booked && slots[slot].booking == Some(id))
  {
  }
}
