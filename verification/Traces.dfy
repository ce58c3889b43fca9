/**
 What the ledger holds of one booking, leaving aside which settlement or payout has taken
 it: its confirmation rows and its refund rows. Settlements and payouts never change it.
 */
module Traces {
  import opened Base
  import opened Money
  import opened LedgerTypes
  import A = Aggregates
  import L = Ledger
  import S = Split
  import T = BooksTheorems

  datatype Kind = Confirmations | Refunds

  predicate Traced(r: Row, booking: Id, kind: Kind) {
    r.booking == booking
    && match kind
       case Confirmations => r.entryType.BookingEntry? || r.entryType.CommissionEntry? || r.entryType.TaxEntry?
       case Refunds => r.entryType.ReversalEntry?
  }

  function Erase(r: Row): Row {
    r.(settlement := None, payout := None)
  }

  function Trace(rows: seq<Row>, booking: Id, kind: Kind): seq<Row> {
    if rows == [] then []
    else
      var n := |rows| - 1;
      var rest := Trace(rows[..n], booking, kind);
      if Traced(rows[n], booking, kind) then rest + [Erase(rows[n])] else rest
  }

  lemma {:induction false} TraceAppend(a: seq<Row>, b: seq<Row>, booking: Id, kind: Kind)
    ensures Trace(a + b, booking, kind) == Trace(a, booking, kind) + Trace(b, booking, kind)
  {
    if b == [] {
      assert a + b == a;
    } else {
      var n := |b| - 1;
      assert (a + b)[..|a + b| - 1] == a + b[..n];
      TraceAppend(a, b[..n], booking, kind);
    }
  }

  /** Allocating rows to settlements and payouts leaves every trace as it was. */
  lemma {:induction false} TraceGrows(rows: seq<Row>, grown: seq<Row>, booking: Id, kind: Kind)
    requires |rows| == |grown| && forall k :: 0 <= k < |rows| ==> T.RowGrows(rows[k], grown[k])
    ensures Trace(grown, booking, kind) == Trace(rows, booking, kind)
  {
    if rows != [] {
      var n := |rows| - 1;
      TraceGrows(rows[..n], grown[..n], booking, kind);
    }
  }

  lemma {:induction false} TraceNone(rows: seq<Row>, booking: Id, kind: Kind)
    requires forall k :: 0 <= k < |rows| ==> !Traced(rows[k], booking, kind)
    ensures Trace(rows, booking, kind) == []
  {
    if rows != [] {
      TraceNone(rows[..|rows| - 1], booking, kind);
    }
  }

  lemma {:induction false} TraceAll(rows: seq<Row>, booking: Id, kind: Kind)
    requires forall k :: 0 <= k < |rows| ==> Traced(rows[k], booking, kind) && Erase(rows[k]) == rows[k]
    ensures Trace(rows, booking, kind) == rows
  {
    if rows != [] {
      TraceAll(rows[..|rows| - 1], booking, kind);
      assert rows == rows[..|rows| - 1] + [rows[|rows| - 1]];
    }
  }

  /** An empty trace means no such row. */
  lemma {:induction false} TraceEmpty(rows: seq<Row>, booking: Id, kind: Kind)
    requires Trace(rows, booking, kind) == []
    ensures forall k :: 0 <= k < |rows| ==> !Traced(rows[k], booking, kind)
  {
    if rows != [] {
      TraceEmpty(rows[..|rows| - 1], booking, kind);
      assert forall k :: 0 <= k < |rows| - 1 ==> rows[..|rows| - 1][k] == rows[k];
    }
  }

  predicate ErasesTo(rows: seq<Row>, erased: seq<Row>) {
    |rows| == |erased| && forall k :: 0 <= k < |rows| ==> Erase(rows[k]) == erased[k]
  }

  /** The originals a cancellation finds are the booking's confirmation rows. */
  lemma {:induction false} OriginalsErase(rows: seq<Row>, booking: Id)
    requires forall k :: 0 <= k < |rows| ==> Shaped(rows[k])
    ensures ErasesTo(L.Originals(rows, booking), Trace(rows, booking, Confirmations))
  {
    if rows != [] {
      var n := |rows| - 1;
      OriginalsErase(rows[..n], booking);
      assert L.IsOriginal(rows[n], booking) <==> Traced(rows[n], booking, Confirmations);
    }
  }

  lemma LegsErase(o: seq<Row>, e: seq<Row>)
    requires ErasesTo(o, e)
    ensures L.Legs(o) == L.Legs(e)
  {
  }

  lemma ReversalsErase(o: seq<Row>, e: seq<Row>, amounts: seq<int>, at: Time, correlation: string, id: Id)
    requires ErasesTo(o, e) && |amounts| == |o|
    ensures L.ReversalRows(o, amounts, at, correlation, id) == L.ReversalRows(e, amounts, at, correlation, id)
  {
  }

  lemma {:induction false} SideErase(o: seq<Row>, e: seq<Row>, d: Direction)
    requires ErasesTo(o, e)
    ensures Side(o, d) == Side(e, d)
  {
    if o != [] {
      var n := |o| - 1;
      SideErase(o[..n], e[..n], d);
      assert Erase(o[n]) == e[n];
    }
  }

  /** The reversals of a refund of `percent`. */
  function RefundRows(journal: seq<Row>, percent: nat, at: Time, correlation: string, id: Id): seq<Row> {
    L.ReversalRows(journal, S.Scaled(L.Legs(journal), percent), at, correlation, id)
  }

  /** A booking's confirmation journal: its scope and amounts are the booking's own, and it balances. */
  predicate JournalFor(journal: seq<Row>, s: Snapshot) {
    && journal != [] && Balance(journal) == 0 && Side(journal, Debit) <= MAX_SAFE
    && forall k :: 0 <= k < |journal| ==> L.InScope(s, journal[k]) && journal[k].amount >= 0
  }

  lemma BookingJournal(s: Snapshot, at: Time, correlation: string, id: Id)
    requires s.partner.Some? && s.contract.Some? && L.BookingAmountsError(s) == None
    ensures JournalFor(L.BookingRows(s, at, correlation, id), s)
    ensures L.DistinctIds(L.BookingRows(s, at, correlation, id))
  {
    L.BookingSides(s, at, correlation, id);
    BalanceIsDifference(L.BookingRows(s, at, correlation, id));
  }

  /** A booking's journal adds exactly the booking's own amounts to a settlement. */
  lemma BookingTotals(s: Snapshot, at: Time, correlation: string, id: Id)
    requires s.partner.Some? && s.contract.Some?
    ensures A.Totalled(L.BookingRows(s, at, correlation, id)) == A.Totals(s.gross, s.commission, s.tax, 0, s.venueNet)
  {
    var rows := L.BookingRows(s, at, correlation, id);
    var one, two, three := [rows[0]], [rows[0], rows[1]], [rows[0], rows[1], rows[2]];
    A.TotalledSnoc([], rows[0]);
    A.TotalledSnoc(one, rows[1]);
    A.TotalledSnoc(two, rows[2]);
    A.TotalledSnoc(three, rows[3]);
    assert [] + [rows[0]] == one && one + [rows[1]] == two && two + [rows[2]] == three && rows == three + [rows[3]];
  }

  lemma ErasedBalanced(o: seq<Row>, journal: seq<Row>, s: Snapshot)
    requires ErasesTo(o, journal) && JournalFor(journal, s) && L.DistinctIds(journal)
    ensures L.Balanced(s, o)
  {
    SideErase(o, journal, Debit);
    SideErase(o, journal, Credit);
    BalanceIsDifference(o);
    BalanceIsDifference(journal);
    forall k | 0 <= k < |o|
      ensures L.InScope(s, o[k]) && 0 <= o[k].amount && o[k].id == journal[k].id
    {
      assert Erase(o[k]) == journal[k];
    }
  }

  lemma StillRefundable(rows: seq<Row>, s: Snapshot, journal: seq<Row>)
    requires forall k :: 0 <= k < |rows| ==> Shaped(rows[k])
    requires Trace(rows, s.booking, Confirmations) == journal && Trace(rows, s.booking, Refunds) == []
    requires JournalFor(journal, s) && L.DistinctIds(journal)
    ensures L.Refundable(rows, s)
  {
    var o := L.Originals(rows, s.booking);
    OriginalsErase(rows, s.booking);
    ErasedBalanced(o, journal, s);
    TraceEmpty(rows, s.booking, Refunds);
    forall k | 0 <= k < |o|
      ensures !L.IsReversed(rows, s.booking, o[k].id)
    {
      forall m | 0 <= m < |rows| && rows[m].booking == s.booking
        ensures rows[m].reverses == None
      {
        assert !Traced(rows[m], s.booking, Refunds);
      }
    }
  }

  lemma ScaledToZero(legs: seq<S.Leg>, k: nat)
    requires k < |legs|
    ensures S.Scaled(legs, 0)[k] == 0
  {
    S.ScaledIsFair(legs, 0);
    assert S.Product(legs[k], 0) == 0;
  }

  lemma {:induction false} NothingKept(amounts: seq<int>)
    requires forall k :: 0 <= k < |amounts| ==> amounts[k] == 0
    ensures L.NonZero(amounts) == []
  {
    if amounts != [] {
      NothingKept(amounts[..|amounts| - 1]);
    }
  }

  lemma RefundOfZero(journal: seq<Row>, at: Time, correlation: string, id: Id)
    ensures RefundRows(journal, 0, at, correlation, id) == []
  {
    var legs := L.Legs(journal);
    forall k | 0 <= k < |legs|
      ensures S.Scaled(legs, 0)[k] == 0
    {
      ScaledToZero(legs, k);
    }
    NothingKept(S.Scaled(legs, 0));
  }

  /** A cancellation that goes through posts the refund of the booking's own journal. */
  lemma CancellationIsRefund(rows: seq<Row>, s: Snapshot, journal: seq<Row>, percent: nat, at: Time,
                             correlation: string, id: Id)
    requires forall k :: 0 <= k < |rows| ==> Shaped(rows[k])
    requires Trace(rows, s.booking, Confirmations) == journal && percent <= 100
    requires L.CancellationPosting(rows, s, percent, at, correlation, id).Ok?
    ensures L.CancellationPosting(rows, s, percent, at, correlation, id).value == RefundRows(journal, percent, at, correlation, id)
  {
    L.PostingIs(rows, s, percent, at, correlation, id);
    if percent == 0 {
      RefundOfZero(journal, at, correlation, id);
    } else {
      var o := L.Originals(rows, s.booking);
      OriginalsErase(rows, s.booking);
      LegsErase(o, journal);
      ReversalsErase(o, journal, S.Scaled(L.Legs(o), percent), at, correlation, id);
    }
  }

  /** On a booking that was posted and not refunded, the ledger side of a cancellation succeeds. */
  lemma RefundPosts(rows: seq<Row>, s: Snapshot, journal: seq<Row>, percent: nat, at: Time, correlation: string, id: Id)
    requires forall k :: 0 <= k < |rows| ==> Shaped(rows[k])
    requires Trace(rows, s.booking, Confirmations) == journal && Trace(rows, s.booking, Refunds) == []
    requires JournalFor(journal, s) && L.DistinctIds(journal) && percent <= 100 && correlation != ""
    ensures L.CancellationPosting(rows, s, percent, at, correlation, id) == Ok(RefundRows(journal, percent, at, correlation, id))
  {
    StillRefundable(rows, s, journal);
    L.CancellationTotal(rows, s, percent, at, correlation, id);
    CancellationIsRefund(rows, s, journal, percent, at, correlation, id);
  }

  /** A confirmation adds exactly its own journal to its booking's trace and nothing to any other. */
  lemma TraceOfPosting(rows: seq<Row>, posted: seq<Row>, booking: Id, own: Id, kind: Kind)
    requires forall k :: 0 <= k < |posted| ==> Traced(posted[k], own, kind) && Erase(posted[k]) == posted[k]
    ensures forall other :: Trace(rows + posted, booking, other) == Trace(rows, booking, other) + (if booking == own && other == kind then posted else [])
  {
    forall other
      ensures Trace(rows + posted, booking, other) == Trace(rows, booking, other) + (if booking == own && other == kind then posted else [])
    {
      TraceAppend(rows, posted, booking, other);
      if booking == own && other == kind {
        TraceAll(posted, booking, kind);
      } else {
        TraceNone(posted, booking, other);
      }
    }
  }
}
