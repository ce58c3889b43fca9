/**
 The whole way of the money: what a partner's settlements have taken, with what they have
 not taken yet, is what its bookings were charged, less what its cancellations recorded,
 plus what was adjusted.
 */
module Accounts {
  import opened Base
  import opened LedgerTypes
  import opened Lifecycle
  import opened LifecycleInvariant
  import opened LifecycleTheorems
  import opened Traces
  import opened LedgerParts
  import A = Aggregates
  import B = Books
  import BT = BooksTheorems
  import L = Ledger
  import Sp = Split

  /** `ids` lists the partner's bookings in an environment, each once. */
  predicate BookingsOf(bookings: Bookings, partner: Id, environment: Environment, ids: seq<Id>) {
    && DistinctIds(ids)
    && (forall b :: b in ids ==> b in bookings && bookings[b].partner == Some(partner) && bookings[b].environment == environment)
    && (forall b :: b in bookings && bookings[b].partner == Some(partner) && bookings[b].environment == environment ==> b in ids)
  }

  // ---------------------------------------------------------- whose rows the rows are

  predicate InAccount(r: Row, b: Booking) {
    b.partner == Some(r.partner) && r.environment == b.environment
  }

  lemma JournalInAccount(b: Booking)
    ensures forall r :: r in JournalOf(b) ==> InAccount(r, b)
  {
  }

  lemma ReversalsInAccount(journal: seq<Row>, amounts: seq<int>, b: Booking, at: Time, correlation: string, id: Id)
    requires |amounts| == |journal| && forall r :: r in journal ==> InAccount(r, b)
    ensures forall r :: r in L.ReversalRows(journal, amounts, at, correlation, id) ==> InAccount(r, b)
  {
    var reversals, kept := L.ReversalRows(journal, amounts, at, correlation, id), L.NonZero(amounts);
    forall j | 0 <= j < |reversals|
      ensures InAccount(reversals[j], b)
    {
      assert journal[kept[j]] in journal;
    }
  }

  lemma RefundInAccount(journal: seq<Row>, b: Booking, percent: nat, at: Time, correlation: string, id: Id)
    requires forall r :: r in journal ==> InAccount(r, b)
    ensures forall r :: r in RefundRows(journal, percent, at, correlation, id) ==> InAccount(r, b)
  {
    ReversalsInAccount(journal, Sp.Scaled(L.Legs(journal), percent), b, at, correlation, id);
  }

  lemma TraceInAccount(rows: seq<Row>, b: Booking, cancellations: seq<Cancellation>, kind: Kind)
    requires Journaled(rows, b)
    requires b.status == Cancelled ==> exists k :: 0 <= k < |cancellations| && Refunded(rows, b, cancellations[k])
    ensures forall r :: r in Trace(rows, b.id, kind) ==> InAccount(r, b)
  {
    JournalInAccount(b);
    if kind == Refunds && b.status == Cancelled && b.partner.Some? {
      var k :| 0 <= k < |cancellations| && Refunded(rows, b, cancellations[k]);
      var c := cancellations[k];
      RefundInAccount(JournalOf(b), b, c.refundPercent, c.cancelledAt, c.correlation, c.journal);
    }
  }

  lemma CancelledRefunded(rows: seq<Row>, bookings: Bookings, cancellations: seq<Cancellation>, b: Id) returns (k: nat)
    requires CancellationsOk(cancellations, bookings) && AllRefunded(rows, bookings, cancellations)
    requires b in bookings && bookings[b].status == Cancelled
    ensures k < |cancellations| && cancellations[k].booking == b && Refunded(rows, bookings[b], cancellations[k])
  {
    assert HasCancellation(cancellations, b);
    k :| 0 <= k < |cancellations| && cancellations[k].booking == b;
  }

  lemma RowInAccount(rows: seq<Row>, bookings: Bookings, cancellations: seq<Cancellation>, next: Id, k: nat)
    requires LedgerOfBookings(rows, bookings, cancellations) && BookingIds(bookings, next) && CancellationsOk(cancellations, bookings)
    requires k < |rows| && !rows[k].entryType.AdjustmentEntry?
    ensures rows[k].booking in bookings && InAccount(rows[k], bookings[rows[k].booking])
  {
    var r := rows[k];
    assert RowKnown(r, bookings);
    var b := bookings[r.booking];
    var kind := if r.entryType.ReversalEntry? then Refunds else Confirmations;
    if b.status == Cancelled {
      var m := CancelledRefunded(rows, bookings, cancellations, r.booking);
    }
    TraceInAccount(rows, b, cancellations, kind);
    TraceHas(rows, r.booking, kind, k);
  }

  lemma BookingsCover(rows: seq<Row>, bookings: Bookings, cancellations: seq<Cancellation>, next: Id, partner: Id,
                      environment: Environment, ids: seq<Id>)
    requires LedgerOfBookings(rows, bookings, cancellations) && BookingIds(bookings, next) && CancellationsOk(cancellations, bookings)
    requires BookingsOf(bookings, partner, environment, ids)
    ensures Covered(rows, ids, partner, environment)
  {
    forall k | 0 <= k < |rows| && !rows[k].entryType.AdjustmentEntry?
      ensures rows[k].booking in ids <==> A.Hits(A.OfPartner(partner, environment), rows[k])
    {
      RowInAccount(rows, bookings, cancellations, next, k);
    }
  }

  // ------------------------------------------------------------- what bookings come to

  /** What a booking was charged when it was confirmed. */
  function Charge(b: Booking): A.Totals {
    A.Totals(b.amounts.gross, b.amounts.commission, b.amounts.tax, 0, b.amounts.venueNet)
  }

  function FindCancellation(cancellations: seq<Cancellation>, booking: Id): Option<Cancellation> {
    if cancellations == [] then None
    else if cancellations[|cancellations| - 1].booking == booking then Some(cancellations[|cancellations| - 1])
    else FindCancellation(cancellations[..|cancellations| - 1], booking)
  }

  /** What its cancellation took back: the totals of the refund of the booking's own journal. */
  function TakenBack(b: Booking, cancellations: seq<Cancellation>): A.Totals {
    match FindCancellation(cancellations, b.id)
    case None => A.ZERO
    case Some(c) =>
      if c.refundPercent < 0 then A.ZERO
      else A.Totalled(RefundRows(JournalOf(b), c.refundPercent, c.cancelledAt, c.correlation, c.journal))
  }

  function ChargedSum(bookings: Bookings, ids: seq<Id>): A.Totals
    requires forall k :: 0 <= k < |ids| ==> ids[k] in bookings
  {
    if ids == [] then A.ZERO else A.Plus(ChargedSum(bookings, ids[..|ids| - 1]), Charge(bookings[ids[|ids| - 1]]))
  }

  function TakenBackSum(bookings: Bookings, cancellations: seq<Cancellation>, ids: seq<Id>): A.Totals
    requires forall k :: 0 <= k < |ids| ==> ids[k] in bookings
  {
    if ids == [] then A.ZERO
    else A.Plus(TakenBackSum(bookings, cancellations, ids[..|ids| - 1]), TakenBack(bookings[ids[|ids| - 1]], cancellations))
  }

  lemma ChargeIs(rows: seq<Row>, b: Booking)
    requires Journaled(rows, b) && b.partner.Some?
    ensures KindTotal(rows, b.id, Confirmations) == Charge(b)
  {
    BookingTotals(SnapshotOf(b), b.confirmedAt, b.correlation, b.journal);
  }

  lemma {:induction false} FoundCancellation(cancellations: seq<Cancellation>, k: nat)
    requires k < |cancellations|
    requires forall i, j :: 0 <= i < j < |cancellations| ==> cancellations[i].booking != cancellations[j].booking
    ensures FindCancellation(cancellations, cancellations[k].booking) == Some(cancellations[k])
  {
    var n := |cancellations| - 1;
    if k < n {
      assert cancellations[n].booking != cancellations[k].booking;
      FoundCancellation(cancellations[..n], k);
    }
  }

  lemma {:induction false} FindNothing(cancellations: seq<Cancellation>, booking: Id)
    requires forall k :: 0 <= k < |cancellations| ==> cancellations[k].booking != booking
    ensures FindCancellation(cancellations, booking) == None
  {
    if cancellations != [] {
      FindNothing(cancellations[..|cancellations| - 1], booking);
    }
  }

  lemma JournalFour(b: Booking)
    requires b.partner.Some? && b.contract.Some? && L.BookingAmountsError(SnapshotOf(b)) == None
    ensures var j := JournalOf(b);
            FourRows(j) && j[0].amount == b.amounts.gross == j[1].amount + j[2].amount + j[3].amount
            && j[0].amount >= 0 && j[1].amount >= 0 && j[2].amount >= 0 && j[3].amount >= 0
  {
  }

  /** What a cancellation takes back is the refund it records. */
  lemma RecordedIsTaken(rows: seq<Row>, b: Booking, c: Cancellation)
    requires Journaled(rows, b) && b.partner.Some? && Refunded(rows, b, c)
    ensures TakesBack(KindTotal(rows, b.id, Refunds), c.refundAmount)
  {
    JournalFour(b);
    TargetsOfFour(JournalOf(b), c.refundPercent);
    RefundTakesBack(JournalOf(b), c.refundPercent, c.refundAmount, c.cancelledAt, c.correlation, c.journal);
  }

  lemma TakenBackIs(rows: seq<Row>, bookings: Bookings, cancellations: seq<Cancellation>, id: Id)
    requires CancellationsOk(cancellations, bookings) && AllRefunded(rows, bookings, cancellations)
    requires id in bookings && bookings[id].id == id && bookings[id].partner.Some? && Journaled(rows, bookings[id])
    ensures KindTotal(rows, id, Refunds) == TakenBack(bookings[id], cancellations)
  {
    if bookings[id].status == Cancelled {
      var k := CancelledRefunded(rows, bookings, cancellations, id);
      FoundCancellation(cancellations, k);
    } else {
      FindNothing(cancellations, id);
    }
  }

  lemma {:induction false} ChargesAgree(rows: seq<Row>, bookings: Bookings, next: Id, ids: seq<Id>)
    requires BookingIds(bookings, next) && forall b :: b in bookings ==> Journaled(rows, bookings[b])
    requires forall k :: 0 <= k < |ids| ==> ids[k] in bookings && bookings[ids[k]].partner.Some?
    ensures KindSum(rows, ids, Confirmations) == ChargedSum(bookings, ids)
  {
    if ids != [] {
      var n := |ids| - 1;
      ChargesAgree(rows, bookings, next, ids[..n]);
      ChargeIs(rows, bookings[ids[n]]);
    }
  }

  lemma {:induction false} TakingsSum(rows: seq<Row>, bookings: Bookings, cancellations: seq<Cancellation>, ids: seq<Id>)
    requires forall k :: 0 <= k < |ids| ==> ids[k] in bookings
    requires forall k :: 0 <= k < |ids| ==> KindTotal(rows, ids[k], Refunds) == TakenBack(bookings[ids[k]], cancellations)
    ensures KindSum(rows, ids, Refunds) == TakenBackSum(bookings, cancellations, ids)
  {
    if ids != [] {
      var n := |ids| - 1;
      TakingsSum(rows, bookings, cancellations, ids[..n]);
      assert ids[n] == ids[|ids| - 1];
    }
  }

  lemma TakingsAgree(rows: seq<Row>, bookings: Bookings, cancellations: seq<Cancellation>, next: Id, ids: seq<Id>)
    requires LedgerOfBookings(rows, bookings, cancellations) && BookingIds(bookings, next) && CancellationsOk(cancellations, bookings)
    requires forall k :: 0 <= k < |ids| ==> ids[k] in bookings && bookings[ids[k]].partner.Some?
    ensures KindSum(rows, ids, Refunds) == TakenBackSum(bookings, cancellations, ids)
  {
    forall k | 0 <= k < |ids|
      ensures KindTotal(rows, ids[k], Refunds) == TakenBack(bookings[ids[k]], cancellations)
    {
      TakenBackIs(rows, bookings, cancellations, ids[k]);
    }
    TakingsSum(rows, bookings, cancellations, ids);
  }

  /** The partner's ledger, by its bookings and adjustments. */
  lemma AccountAddsUp(rows: seq<Row>, bookings: Bookings, cancellations: seq<Cancellation>, next: Id, partner: Id,
                      environment: Environment, ids: seq<Id>)
    requires LedgerOfBookings(rows, bookings, cancellations) && BookingIds(bookings, next) && CancellationsOk(cancellations, bookings)
    requires BookingsOf(bookings, partner, environment, ids)
    ensures PartnerTotal(rows, partner, environment)
         == A.Plus(A.Plus(ChargedSum(bookings, ids), TakenBackSum(bookings, cancellations, ids)), AdjustedSum(rows, partner, environment))
  {
    BookingsCover(rows, bookings, cancellations, next, partner, environment, ids);
    LedgerAddsUp(rows, ids, partner, environment);
    ChargesAgree(rows, bookings, next, ids);
    TakingsAgree(rows, bookings, cancellations, next, ids);
  }

  /** The partner's settlements and what they have not taken yet. */
  function Settled(books: B.Books, partner: Id, environment: Environment, settlements: seq<Id>): A.Totals
    requires forall k :: 0 <= k < |settlements| ==> settlements[k] in books.settlements
  {
    A.Plus(BT.StoredSum(books.settlements, settlements), A.Totalled(A.Select(B.Rows(books), A.Unsettled(partner, environment))))
  }

  /** What the partner's bookings come to: charges, less what was taken back, plus adjustments. */
  function Owed(s: System, partner: Id, environment: Environment, ids: seq<Id>): A.Totals
    requires forall k :: 0 <= k < |ids| ==> ids[k] in s.bookings
  {
    A.Plus(A.Plus(ChargedSum(s.bookings, ids), TakenBackSum(s.bookings, s.cancellations, ids)),
           AdjustedSum(B.Rows(s.books), partner, environment))
  }

  /**
   Over every run of bookings, cancellations and the financial close, whatever was settled
   when: the stored totals of a partner's settlements and its unsettled rows together are
   the charges of its bookings, less what their cancellations took back, plus adjustments.
   */
  lemma MoneyTrail(courts: map<Id, nat>, clock: Time, run: seq<System>, steps: seq<Step>, partner: Id,
                   environment: Environment, bookings: seq<Id>, settlements: seq<Id>)
    requires Path(run, steps) && run[0] == Start(courts, clock)
    requires BookingsOf(run[|steps|].bookings, partner, environment, bookings)
    requires BT.SettlementsOf(run[|steps|].books, partner, environment, settlements)
    ensures Settled(run[|steps|].books, partner, environment, settlements) == Owed(run[|steps|], partner, environment, bookings)
  {
    StartInv(courts, clock);
    RunContinues(run, steps);
    var s := run[|steps|];
    BT.SettlementsConserve(s.books, partner, environment, settlements);
    AccountAddsUp(B.Rows(s.books), s.bookings, s.cancellations, s.inventory.nextId, partner, environment, bookings);
  }

  /** And what the cancellation of a partner's booking took back is the refund it recorded. */
  lemma RecordedRefunds(courts: map<Id, nat>, clock: Time, run: seq<System>, steps: seq<Step>, k: nat)
    requires Path(run, steps) && run[0] == Start(courts, clock) && k < |run[|steps|].cancellations|
    ensures var s := run[|steps|];
            var c := s.cancellations[k];
            c.booking in s.bookings
            && (s.bookings[c.booking].partner.Some? ==> TakesBack(TakenBack(s.bookings[c.booking], s.cancellations), c.refundAmount))
  {
    StartInv(courts, clock);
    RunContinues(run, steps);
    var s := run[|steps|];
    RecordedIn(B.Rows(s.books), s.bookings, s.cancellations, s.inventory.nextId, k);
  }

  lemma RecordedIn(rows: seq<Row>, bookings: Bookings, cancellations: seq<Cancellation>, next: Id, k: nat)
    requires LedgerOfBookings(rows, bookings, cancellations) && BookingIds(bookings, next) && CancellationsOk(cancellations, bookings)
    requires k < |cancellations|
    ensures var c := cancellations[k];
            c.booking in bookings && (bookings[c.booking].partner.Some? ==> TakesBack(TakenBack(bookings[c.booking], cancellations), c.refundAmount))
  {
    var c := cancellations[k];
    if bookings[c.booking].partner.Some? {
      TakenBackIs(rows, bookings, cancellations, c.booking);
      RecordedIsTaken(rows, bookings[c.booking], c);
    }
  }
}
