/**
 The ledger service: what each posting checks, which rows it appends, and why the
 rows it appends are a journal.
 */
module Ledger {
  import opened Base
  import opened Money
  import opened LedgerTypes
  import opened Split

  // ------------------------------------------------------------- the journal check

  /** The first complaint the loop of `validateLedgerJournal` meets in `entries[from..]`. */
  function RowError(first: Row, entries: seq<Row>): Option<LedgerError> {
    if entries == [] then None
    else if !(0 <= entries[0].amount <= MAX_SAFE) then Some(InvalidLedgerAmount)
    else if !SameScope(entries[0], first) then Some(LedgerScopeMismatch)
    else RowError(first, entries[1..])
  }

  function JournalError(entries: seq<Row>): Option<LedgerError> {
    if |entries| < 2 then Some(LedgerJournalIncomplete)
    else if RowError(entries[0], entries).Some? then RowError(entries[0], entries)
    else if !Safe(Side(entries, Debit)) || Side(entries, Debit) != Side(entries, Credit)
      then Some(LedgerJournalUnbalanced)
    else None
  }

  lemma {:induction false} RowErrorMeans(first: Row, entries: seq<Row>)
    ensures RowError(first, entries) == None
       <==> forall k :: 0 <= k < |entries| ==> 0 <= entries[k].amount <= MAX_SAFE && SameScope(entries[k], first)
  {
    if entries == [] {
    } else {
      RowErrorMeans(first, entries[1..]);
      assert forall k :: 0 < k < |entries| ==> entries[1..][k - 1] == entries[k];
    }
  }

  /** A journal is accepted exactly when it is long enough, in range, of one scope and balanced. */
  lemma JournalAccepted(entries: seq<Row>)
    ensures JournalError(entries) == None
       <==> (|entries| >= 2
             && (forall k :: 0 <= k < |entries| ==>
                   0 <= entries[k].amount <= MAX_SAFE && SameScope(entries[k], entries[0]))
             && Side(entries, Debit) <= MAX_SAFE
             && Balance(entries) == 0)
  {
    BalanceIsDifference(entries);
    if |entries| >= 2 {
      RowErrorMeans(entries[0], entries);
      if RowError(entries[0], entries) == None {
        SideNonNegative(entries, Debit);
      }
    }
  }

  lemma {:induction false} SideNonNegative(entries: seq<Row>, d: Direction)
    requires forall k :: 0 <= k < |entries| ==> entries[k].amount >= 0
    ensures Side(entries, d) >= 0
  {
    if entries != [] {
      SideNonNegative(entries[..|entries| - 1], d);
    }
  }

  /** `validateLedgerJournal`. */
  method ValidateLedgerJournal(entries: seq<Row>) returns (error: Option<LedgerError>)
    ensures error == JournalError(entries)
  {
    if |entries| < 2 {
      return Some(LedgerJournalIncomplete);
    }
    var first := entries[0];
    var debit, credit := 0, 0;
    for k := 0 to |entries|
      invariant RowError(first, entries) == RowError(first, entries[k..])
      invariant debit == Side(entries[..k], Debit) && credit == Side(entries[..k], Credit)
    {
      var value := entries[k];
      assert entries[k..][1..] == entries[k + 1..];
      assert entries[..k + 1][..k] == entries[..k];
      if !(0 <= value.amount <= MAX_SAFE) {
        return Some(InvalidLedgerAmount);
      }
      if !SameScope(value, first) {
        return Some(LedgerScopeMismatch);
      }
      if value.direction == Debit {
        debit := debit + value.amount;
      } else {
        credit := credit + value.amount;
      }
    }
    assert entries[..|entries|] == entries;
    if !Safe(debit) || debit != credit {
      return Some(LedgerJournalUnbalanced);
    }
    return None;
  }

  // -------------------------------------------------------------------- bookings

  function BookingAmountsError(b: Snapshot): Option<LedgerError> {
    if !(0 <= b.gross <= MAX_SAFE) || !(0 <= b.commission <= MAX_SAFE)
       || !(0 <= b.tax <= MAX_SAFE) || !(0 <= b.venueNet <= MAX_SAFE)
      then Some(InvalidBookingLedgerAmount)
    else if b.gross != b.commission + b.tax + b.venueNet then Some(BookingLedgerImbalance)
    else None
  }

  function Entry(b: Snapshot, at: Time, correlation: string, id: Id, t: EntryType, amount: int, c: Component): Row
    requires b.partner.Some? && b.contract.Some?
  {
    Row(id, b.booking, b.partner.value, b.venue, b.contract.value, None, None, None, b.environment,
        t, SideOf(c), amount, at, correlation, Some(c), None)
  }

  function BookingRows(b: Snapshot, at: Time, correlation: string, id: Id): seq<Row>
    requires b.partner.Some? && b.contract.Some?
  {
    [ Entry(b, at, correlation, id, BookingEntry, b.gross, Gross),
      Entry(b, at, correlation, id + 1, CommissionEntry, b.commission, Commission),
      Entry(b, at, correlation, id + 2, TaxEntry, b.tax, Tax),
      Entry(b, at, correlation, id + 3, BookingEntry, b.venueNet, VenueNet) ]
  }

  /** The journal `postBooking` appends, or why it refuses. `id` is the next free identifier. */
  function BookingPosting(b: Snapshot, at: Time, correlation: string, id: Id): Result<seq<Row>, LedgerError> {
    if BookingAmountsError(b).Some? then Err(BookingAmountsError(b).value)
    else if b.partner == None || b.contract == None then Err(FinancialScopeRequired)
    else if correlation == "" then Err(FieldRequired)
    else
      var rows := BookingRows(b, at, correlation, id);
      if JournalError(rows).Some? then Err(JournalError(rows).value) else Ok(rows)
  }

  lemma SideSnoc(s: seq<Row>, x: Row, d: Direction)
    ensures Side(s + [x], d) == Side(s, d) + if x.direction == d then x.amount else 0
  {
  }

  /** The debit of a booking journal is the gross, its credits are the three parts. */
  lemma BookingSides(b: Snapshot, at: Time, correlation: string, id: Id)
    requires b.partner.Some? && b.contract.Some?
    ensures Side(BookingRows(b, at, correlation, id), Debit) == b.gross
    ensures Side(BookingRows(b, at, correlation, id), Credit) == b.commission + b.tax + b.venueNet
  {
    var rows := BookingRows(b, at, correlation, id);
    var one, two, three := [rows[0]], [rows[0], rows[1]], [rows[0], rows[1], rows[2]];
    forall d: Direction
      ensures Side(rows, d) == Side([], d) + (if d == Debit then b.gross else b.commission + b.tax + b.venueNet)
    {
      SideSnoc([], rows[0], d);
      SideSnoc(one, rows[1], d);
      SideSnoc(two, rows[2], d);
      SideSnoc(three, rows[3], d);
      assert one == [] + [rows[0]] && two == one + [rows[1]];
      assert three == two + [rows[2]] && rows == three + [rows[3]];
    }
  }

  lemma BookingRowsPost(b: Snapshot, at: Time, correlation: string, id: Id)
    requires b.partner.Some? && b.contract.Some? && BookingAmountsError(b) == None
    ensures Posting(BookingRows(b, at, correlation, id), id)
  {
    BookingSides(b, at, correlation, id);
    BalanceIsDifference(BookingRows(b, at, correlation, id));
  }

  /** The journal check never refuses what the amount check let through. */
  lemma BookingAccepted(b: Snapshot, at: Time, correlation: string, id: Id)
    ensures BookingPosting(b, at, correlation, id).Ok?
       <==> (BookingAmountsError(b) == None && b.partner.Some? && b.contract.Some? && correlation != "")
    ensures BookingPosting(b, at, correlation, id).Ok? ==>
      BookingPosting(b, at, correlation, id).value == BookingRows(b, at, correlation, id)
      && Posting(BookingRows(b, at, correlation, id), id)
  {
    if BookingAmountsError(b) == None && b.partner.Some? && b.contract.Some? && correlation != "" {
      BookingSides(b, at, correlation, id);
      BookingRowsPost(b, at, correlation, id);
      JournalAccepted(BookingRows(b, at, correlation, id));
    }
  }

  // --------------------------------------------------------------- cancellations

  predicate IsOriginal(r: Row, booking: Id) {
    r.booking == booking && r.reverses == None
    && (r.entryType.BookingEntry? || r.entryType.CommissionEntry? || r.entryType.TaxEntry?)
    && r.component.Some? && Known(r.component.value)
  }

  /** The rows of a booking's confirmation that a refund is taken from. */
  function Originals(rows: seq<Row>, booking: Id): (r: seq<Row>)
    ensures forall k :: 0 <= k < |r| ==> r[k] in rows && IsOriginal(r[k], booking)
    ensures forall k :: 0 <= k < |rows| && IsOriginal(rows[k], booking) ==> rows[k] in r
  {
    if rows == [] then []
    else
      var rest := Originals(rows[..|rows| - 1], booking);
      if IsOriginal(rows[|rows| - 1], booking) then rest + [rows[|rows| - 1]] else rest
  }

  predicate IsReversed(rows: seq<Row>, booking: Id, original: Id) {
    exists k :: 0 <= k < |rows| && rows[k].booking == booking && rows[k].reverses == Some(original)
  }

  predicate InScope(b: Snapshot, r: Row) {
    r.booking == b.booking && Some(r.partner) == b.partner && r.venue == b.venue
    && Some(r.contract) == b.contract && r.environment == b.environment
  }

  function LegOf(r: Row): Leg {
    Leg(r.direction, if r.amount < 0 then 0 else r.amount)
  }

  function Legs(rows: seq<Row>): (r: seq<Leg>)
    ensures |r| == |rows|
  {
    seq(|rows|, k requires 0 <= k < |rows| => LegOf(rows[k]))
  }

  /** The positions of the shares that are not zero, in order. */
  function NonZero(amounts: seq<int>): (r: seq<nat>)
    ensures forall j :: 0 <= j < |r| ==> r[j] < |amounts| && amounts[r[j]] != 0
    ensures forall i, j :: 0 <= i < j < |r| ==> r[i] < r[j]
    ensures forall k :: 0 <= k < |amounts| && amounts[k] != 0 ==> k in r
  {
    if amounts == [] then []
    else
      var n := |amounts| - 1;
      var rest := NonZero(amounts[..n]);
      if amounts[n] != 0 then rest + [n] else rest
  }

  function ReversalRow(o: Row, amount: int, at: Time, correlation: string, id: Id): Row {
    Row(id, o.booking, o.partner, o.venue, o.contract, None, None, Some(o.id), o.environment,
        ReversalEntry, Flip(o.direction), amount, at, correlation, None, o.component)
  }

  function ReversalRows(originals: seq<Row>, amounts: seq<int>, at: Time, correlation: string, id: Id): (r: seq<Row>)
    requires |amounts| == |originals|
    ensures |r| == |NonZero(amounts)|
  {
    var kept := NonZero(amounts);
    seq(|kept|, j requires 0 <= j < |kept| =>
      ReversalRow(originals[kept[j]], amounts[kept[j]], at, correlation, id + j))
  }

  function FindRow(rows: seq<Row>, id: Id): (r: Option<Row>)
    ensures r.Some? ==> r.value in rows && r.value.id == id
    ensures r == None ==> forall k :: 0 <= k < |rows| ==> rows[k].id != id
  {
    if rows == [] then None
    else if rows[0].id == id then Some(rows[0])
    else FindRow(rows[1..], id)
  }

  predicate Offsets(reversal: Row, originals: seq<Row>) {
    reversal.reverses.Some?
    && var o := FindRow(originals, reversal.reverses.value);
       o.Some? && reversal.direction != o.value.direction && reversal.amount <= o.value.amount
  }

  /** Every reversal offsets an original of the other direction, and no original twice. */
  predicate ReversalsValid(reversals: seq<Row>, originals: seq<Row>) {
    && (forall k :: 0 <= k < |reversals| ==> Offsets(reversals[k], originals))
    && (forall k, m :: 0 <= k < m < |reversals| ==> reversals[k].reverses != reversals[m].reverses)
  }

  /** The reversal takes back at most all of one of the rows, on the other side. */
  predicate Undoes(reversal: Row, originals: seq<Row>) {
    exists m :: 0 <= m < |originals| && reversal.reverses == Some(originals[m].id)
                && reversal.direction != originals[m].direction && reversal.amount <= originals[m].amount
  }

  lemma {:induction false} FindRowIs(rows: seq<Row>, m: nat)
    requires m < |rows| && DistinctIds(rows)
    ensures FindRow(rows, rows[m].id) == Some(rows[m])
  {
    if m > 0 {
      assert rows[0].id != rows[m].id;
      FindRowIs(rows[1..], m - 1);
    }
  }

  lemma OffsetsIs(reversal: Row, originals: seq<Row>)
    requires DistinctIds(originals)
    ensures Offsets(reversal, originals) <==> Undoes(reversal, originals)
  {
    if Offsets(reversal, originals) {
      var o := FindRow(originals, reversal.reverses.value).value;
      var m :| 0 <= m < |originals| && originals[m] == o;
    }
    if Undoes(reversal, originals) {
      var m :| 0 <= m < |originals| && reversal.reverses == Some(originals[m].id)
               && reversal.direction != originals[m].direction && reversal.amount <= originals[m].amount;
      FindRowIs(originals, m);
    }
  }

  /** Reversals are valid exactly when each takes back at most all of an original, and none of the same original as another. */
  lemma ReversalsAccepted(reversals: seq<Row>, originals: seq<Row>)
    requires DistinctIds(originals)
    ensures ReversalsValid(reversals, originals)
       <==> (forall k :: 0 <= k < |reversals| ==> Undoes(reversals[k], originals))
            && (forall k, m :: 0 <= k < m < |reversals| ==> reversals[k].reverses != reversals[m].reverses)
  {
    forall k | 0 <= k < |reversals|
      ensures Offsets(reversals[k], originals) <==> Undoes(reversals[k], originals)
    {
      OffsetsIs(reversals[k], originals);
    }
  }

  /** `validateReversals`. */
  method ValidateReversals(reversals: seq<Row>, originals: seq<Row>) returns (valid: bool)
    ensures valid == ReversalsValid(reversals, originals)
  {
    var seen: set<Id> := {};
    for k := 0 to |reversals|
      invariant forall m :: 0 <= m < k ==> Offsets(reversals[m], originals)
      invariant forall m, n :: 0 <= m < n < k ==> reversals[m].reverses != reversals[n].reverses
      invariant forall m :: 0 <= m < k ==> reversals[m].reverses.value in seen
      invariant forall id :: id in seen ==> exists m :: 0 <= m < k && reversals[m].reverses == Some(id)
    {
      var reversal := reversals[k];
      if !Offsets(reversal, originals) || reversal.reverses.value in seen {
        return false;
      }
      seen := seen + {reversal.reverses.value};
    }
    return true;
  }

  /** What `postCancellation` finds wrong before it computes a share. */
  function OriginalsError(rows: seq<Row>, b: Snapshot, originals: seq<Row>): Option<LedgerError> {
    if originals == [] then Some(LedgerOriginalsNotFound)
    else if exists k :: 0 <= k < |originals| && !InScope(b, originals[k]) then Some(LedgerBookingScopeMismatch)
    else if exists k :: 0 <= k < |originals| && IsReversed(rows, b.booking, originals[k].id)
      then Some(LedgerEntryAlreadyReversed)
    else None
  }

  /** The checks on the reversals themselves. */
  function ReversalError(entries: seq<Row>, originals: seq<Row>, correlation: string): Option<LedgerError> {
    if correlation == "" then Some(FieldRequired)
    else if JournalError(entries).Some? then JournalError(entries)
    else if !ReversalsValid(entries, originals) then Some(InvalidLedgerReversal)
    else None
  }

  /** The reversals `postCancellation` appends, or why it refuses. An empty list appends nothing. */
  function CancellationPosting(rows: seq<Row>, b: Snapshot, percent: int, at: Time, correlation: string, id: Id)
    : Result<seq<Row>, LedgerError>
  {
    if !(0 <= percent <= 100) then Err(InvalidRefundPercent)
    else if percent == 0 then Ok([])
    else
      var originals := Originals(rows, b.booking);
      if OriginalsError(rows, b, originals).Some? then Err(OriginalsError(rows, b, originals).value)
      else
        var entries := ReversalRows(originals, Scaled(Legs(originals), percent), at, correlation, id);
        if entries == [] then Ok([])
        else if ReversalError(entries, originals, correlation).Some?
          then Err(ReversalError(entries, originals, correlation).value)
        else Ok(entries)
  }

  lemma ReversalRowsLast(originals: seq<Row>, amounts: seq<int>, at: Time, correlation: string, id: Id)
    requires |amounts| == |originals| > 0
    ensures var n := |originals| - 1;
            var rest := ReversalRows(originals[..n], amounts[..n], at, correlation, id);
            ReversalRows(originals, amounts, at, correlation, id)
            == if amounts[n] == 0 then rest
               else rest + [ReversalRow(originals[n], amounts[n], at, correlation, id + |rest|)]
  {
  }

  lemma {:induction false} ReversalSide(originals: seq<Row>, amounts: seq<int>, at: Time, correlation: string, id: Id,
                                        d: Direction)
    requires |amounts| == |originals|
    ensures Side(ReversalRows(originals, amounts, at, correlation, id), Flip(d)) == DirSum(Legs(originals), amounts, d)
  {
    if originals != [] {
      var n := |originals| - 1;
      var rest := ReversalRows(originals[..n], amounts[..n], at, correlation, id);
      ReversalSide(originals[..n], amounts[..n], at, correlation, id, d);
      assert Legs(originals)[..n] == Legs(originals[..n]);
      ReversalRowsLast(originals, amounts, at, correlation, id);
      if amounts[n] != 0 {
        SideSnoc(rest, ReversalRow(originals[n], amounts[n], at, correlation, id + |rest|), Flip(d));
      }
    }
  }

  lemma {:induction false} SideIsDirSum(rows: seq<Row>, d: Direction)
    requires forall k :: 0 <= k < |rows| ==> rows[k].amount >= 0
    ensures Side(rows, d) == DirSum(Legs(rows), Amounts(Legs(rows)), d)
  {
    if rows != [] {
      var n := |rows| - 1;
      SideIsDirSum(rows[..n], d);
      assert Legs(rows)[..n] == Legs(rows[..n]);
      assert Amounts(Legs(rows))[..n] == Amounts(Legs(rows[..n]));
    }
  }

  lemma {:induction false} SideBounds(rows: seq<Row>, d: Direction)
    requires forall k :: 0 <= k < |rows| ==> rows[k].amount >= 0
    ensures Side(rows, d) >= 0
    ensures forall k :: 0 <= k < |rows| && rows[k].direction == d ==> rows[k].amount <= Side(rows, d)
    ensures Side(rows, d) > 0 ==> exists k :: 0 <= k < |rows| && rows[k].direction == d
  {
    if rows != [] {
      var n := |rows| - 1;
      SideBounds(rows[..n], d);
      assert forall k :: 0 <= k < n ==> rows[..n][k] == rows[k];
    }
  }

  /** Rows a first refund can be taken from: one scope, balanced, in range, told apart by their ids. */
  predicate Balanced(b: Snapshot, o: seq<Row>) {
    && o != []
    && Balance(o) == 0 && Side(o, Debit) <= MAX_SAFE
    && (forall k :: 0 <= k < |o| ==> InScope(b, o[k]) && 0 <= o[k].amount)
    && DistinctIds(o)
  }

  predicate DistinctIds(rows: seq<Row>) {
    forall k, m :: 0 <= k < m < |rows| ==> rows[k].id != rows[m].id
  }

  /** A confirmed booking's rows as a first cancellation finds them. */
  predicate Refundable(rows: seq<Row>, b: Snapshot) {
    var o := Originals(rows, b.booking);
    Balanced(b, o) && forall k :: 0 <= k < |o| ==> !IsReversed(rows, b.booking, o[k].id)
  }

  /** `amounts` takes at most what each row holds, and `total` on either side. */
  predicate Takes(o: seq<Row>, amounts: seq<int>, total: int) {
    && |amounts| == |o|
    && (forall k :: 0 <= k < |o| ==> 0 <= amounts[k] <= o[k].amount)
    && DirSum(Legs(o), amounts, Debit) == total && DirSum(Legs(o), amounts, Credit) == total
  }

  lemma AmountBound(b: Snapshot, o: seq<Row>, k: nat)
    requires Balanced(b, o) && k < |o|
    ensures o[k].amount <= Side(o, Debit) <= MAX_SAFE
  {
    SideBounds(o, o[k].direction);
    BalanceIsDifference(o);
  }

  lemma ReversalOffsets(o: seq<Row>, k: nat, amount: int, at: Time, correlation: string, id: Id)
    requires k < |o| && DistinctIds(o) && amount <= o[k].amount
    ensures Offsets(ReversalRow(o[k], amount, at, correlation, id), o)
  {
  }

  lemma ReversalsOffset(o: seq<Row>, amounts: seq<int>, at: Time, correlation: string, id: Id)
    requires DistinctIds(o) && |amounts| == |o| && forall k :: 0 <= k < |o| ==> amounts[k] <= o[k].amount
    ensures ReversalsValid(ReversalRows(o, amounts, at, correlation, id), o)
  {
    var r, kept := ReversalRows(o, amounts, at, correlation, id), NonZero(amounts);
    forall j | 0 <= j < |r|
      ensures Offsets(r[j], o)
    {
      ReversalOffsets(o, kept[j], amounts[kept[j]], at, correlation, id + j);
    }
    ReversalsDistinct(o, amounts, at, correlation, id);
  }

  lemma ReversalsDistinct(o: seq<Row>, amounts: seq<int>, at: Time, correlation: string, id: Id)
    requires DistinctIds(o) && |amounts| == |o|
    ensures var r := ReversalRows(o, amounts, at, correlation, id);
            forall i, j :: 0 <= i < j < |r| ==> r[i].reverses != r[j].reverses
  {
  }

  lemma ReversalsSides(o: seq<Row>, amounts: seq<int>, total: int, at: Time, correlation: string, id: Id)
    requires Takes(o, amounts, total)
    ensures var r := ReversalRows(o, amounts, at, correlation, id); Side(r, Debit) == total && Side(r, Credit) == total
  {
    ReversalSide(o, amounts, at, correlation, id, Debit);
    ReversalSide(o, amounts, at, correlation, id, Credit);
  }

  lemma ReversalsInRange(b: Snapshot, o: seq<Row>, amounts: seq<int>, at: Time, correlation: string, id: Id)
    requires Balanced(b, o) && |amounts| == |o| && forall k :: 0 <= k < |o| ==> 0 <= amounts[k] <= o[k].amount
    ensures var r := ReversalRows(o, amounts, at, correlation, id);
            forall j :: 0 <= j < |r| ==> 0 < r[j].amount <= MAX_SAFE && SameScope(r[j], r[0])
  {
    var r, kept := ReversalRows(o, amounts, at, correlation, id), NonZero(amounts);
    forall j | 0 <= j < |r|
      ensures 0 < r[j].amount <= MAX_SAFE && SameScope(r[j], r[0])
    {
      AmountBound(b, o, kept[j]);
      assert InScope(b, o[kept[j]]) && InScope(b, o[kept[0]]);
    }
  }

  /** Positive rows of one scope whose sides agree are accepted as a journal: there must be one of each side. */
  lemma AgreeingSidesJournal(r: seq<Row>, total: int)
    requires r != [] && total <= MAX_SAFE && Side(r, Debit) == total && Side(r, Credit) == total
    requires forall j :: 0 <= j < |r| ==> 0 < r[j].amount <= MAX_SAFE && SameScope(r[j], r[0])
    ensures JournalError(r) == None
  {
    SideBounds(r, Debit);
    SideBounds(r, Credit);
    assert r[0].amount <= Side(r, r[0].direction);
    BalanceIsDifference(r);
    JournalAccepted(r);
  }

  lemma ReversalsJournal(b: Snapshot, o: seq<Row>, amounts: seq<int>, total: int, at: Time, correlation: string, id: Id)
    requires Balanced(b, o) && Takes(o, amounts, total) && total <= MAX_SAFE
    ensures var r := ReversalRows(o, amounts, at, correlation, id);
            Side(r, Debit) == total && Side(r, Credit) == total && (r == [] || JournalError(r) == None)
  {
    var r := ReversalRows(o, amounts, at, correlation, id);
    ReversalsSides(o, amounts, total, at, correlation, id);
    ReversalsInRange(b, o, amounts, at, correlation, id);
    if r != [] {
      AgreeingSidesJournal(r, total);
    }
  }

  /** The split takes the rounded share of the whole on either side, and never more than a row holds. */
  lemma SplitTakes(b: Snapshot, o: seq<Row>, percent: nat)
    requires Balanced(b, o) && percent <= 100
    ensures Takes(o, Scaled(Legs(o), percent), RoundDiv(Side(o, Debit) * percent, 100))
    ensures RoundDiv(Side(o, Debit) * percent, 100) <= MAX_SAFE
  {
    BalanceIsDifference(o);
    SideIsDirSum(o, Debit);
    SideIsDirSum(o, Credit);
    ScaledTotal(Legs(o), percent, Debit);
    ScaledTotal(Legs(o), percent, Credit);
    forall k | 0 <= k < |o|
      ensures 0 <= Scaled(Legs(o), percent)[k] <= o[k].amount
    {
      ScaledBounds(Legs(o), percent, k);
    }
    RefundTotalSafe(Side(o, Debit), percent);
  }

  lemma RefundTotalSafe(total: int, percent: nat)
    requires total <= MAX_SAFE && percent <= 100
    ensures RoundDiv(total * percent, 100) <= MAX_SAFE
  {
  }

  lemma FullReversal(o: seq<Row>, amounts: seq<int>, at: Time, correlation: string, id: Id, k: nat)
    requires |amounts| == |o| && k < |o| && amounts[k] != 0
    ensures exists j :: 0 <= j < |ReversalRows(o, amounts, at, correlation, id)|
                        && ReversalRows(o, amounts, at, correlation, id)[j].reverses == Some(o[k].id)
                        && ReversalRows(o, amounts, at, correlation, id)[j].amount == amounts[k]
  {
    var j :| 0 <= j < |NonZero(amounts)| && NonZero(amounts)[j] == k;
    assert ReversalRows(o, amounts, at, correlation, id)[j] == ReversalRow(o[k], amounts[k], at, correlation, id + j);
  }

  /** `refund` reverses every row of `o` that is not zero, in full. */
  predicate ReversesAll(o: seq<Row>, refund: seq<Row>) {
    forall k :: 0 <= k < |o| && o[k].amount > 0 ==>
      exists j :: 0 <= j < |refund| && refund[j].reverses == Some(o[k].id) && refund[j].amount == o[k].amount
  }

  /** The reversals of a split pass every check on them. */
  lemma RefundChecked(b: Snapshot, o: seq<Row>, percent: nat, at: Time, correlation: string, id: Id)
    requires Balanced(b, o) && percent <= 100
    ensures var r := ReversalRows(o, Scaled(Legs(o), percent), at, correlation, id);
            && Side(r, Debit) == Side(r, Credit) == RoundDiv(Side(o, Debit) * percent, 100)
            && ReversalsValid(r, o) && (r == [] || JournalError(r) == None)
  {
    var amounts, total := Scaled(Legs(o), percent), RoundDiv(Side(o, Debit) * percent, 100);
    SplitTakes(b, o, percent);
    ReversalsOffset(o, amounts, at, correlation, id);
    ReversalsJournal(b, o, amounts, total, at, correlation, id);
  }

  lemma CheckedPosts(rows: seq<Row>, b: Snapshot, percent: nat, at: Time, correlation: string, id: Id, entries: seq<Row>)
    requires 0 < percent <= 100 && correlation != "" && OriginalsError(rows, b, Originals(rows, b.booking)) == None
    requires entries == ReversalRows(Originals(rows, b.booking), Scaled(Legs(Originals(rows, b.booking)), percent), at, correlation, id)
    requires ReversalsValid(entries, Originals(rows, b.booking)) && (entries == [] || JournalError(entries) == None)
    ensures CancellationPosting(rows, b, percent, at, correlation, id) == Ok(entries)
  {
  }

  lemma OriginalsAccepted(rows: seq<Row>, b: Snapshot)
    requires Refundable(rows, b)
    ensures OriginalsError(rows, b, Originals(rows, b.booking)) == None
  {
  }

  /** A refund of some percentage goes through and posts the reversals of the split. */
  lemma CancellationOfSome(rows: seq<Row>, b: Snapshot, percent: nat, at: Time, correlation: string, id: Id)
    requires Refundable(rows, b) && 0 < percent <= 100 && correlation != ""
    ensures var o, p := Originals(rows, b.booking), CancellationPosting(rows, b, percent, at, correlation, id);
            p == Ok(ReversalRows(o, Scaled(Legs(o), percent), at, correlation, id))
            && Side(p.value, Debit) == Side(p.value, Credit) == RoundDiv(Side(o, Debit) * percent, 100)
            && ReversalsValid(p.value, o)
  {
    var o := Originals(rows, b.booking);
    RefundChecked(b, o, percent, at, correlation, id);
    OriginalsAccepted(rows, b);
    CheckedPosts(rows, b, percent, at, correlation, id, ReversalRows(o, Scaled(Legs(o), percent), at, correlation, id));
  }

  /**
   The ledger side of a cancellation never fails: on a booking that was posted and not
   yet reversed every check passes, each side of the refund is the rounded share of the
   whole, no reversal exceeds its original, and a full refund reverses every row that is
   not zero in full.
   */
  lemma CancellationTotal(rows: seq<Row>, b: Snapshot, percent: nat, at: Time, correlation: string, id: Id)
    requires Refundable(rows, b) && percent <= 100 && correlation != ""
    ensures var o, p := Originals(rows, b.booking), CancellationPosting(rows, b, percent, at, correlation, id);
            p.Ok?
            && Side(p.value, Debit) == Side(p.value, Credit) == RoundDiv(Side(o, Debit) * percent, 100)
            && ReversalsValid(p.value, o)
            && (percent == 100 ==> ReversesAll(o, p.value))
  {
    if percent == 0 {
      RefundOfNothing(Side(Originals(rows, b.booking), Debit));
    } else {
      CancellationOfSome(rows, b, percent, at, correlation, id);
      if percent == 100 {
        FullRefund(Originals(rows, b.booking), at, correlation, id);
      }
    }
  }

  lemma RefundOfNothing(total: int)
    ensures RoundDiv(total * 0, 100) == 0
  {
  }

  lemma FullRefund(o: seq<Row>, at: Time, correlation: string, id: Id)
    ensures ReversesAll(o, ReversalRows(o, Scaled(Legs(o), 100), at, correlation, id))
  {
    var amounts := Scaled(Legs(o), 100);
    var refund := ReversalRows(o, amounts, at, correlation, id);
    forall k | 0 <= k < |o| && o[k].amount > 0
      ensures exists j :: 0 <= j < |refund| && refund[j].reverses == Some(o[k].id) && refund[j].amount == o[k].amount
    {
      ScaledBounds(Legs(o), 100, k);
      FullReversal(o, amounts, at, correlation, id, k);
    }
  }

  /** A reversal of some row of the ledger. */
  predicate ReversesOneOf(r: Row, rows: seq<Row>) {
    r.entryType.ReversalEntry? && exists k :: 0 <= k < |rows| && ReversalOf(r, rows[k])
  }

  lemma ReversalsShape(rows: seq<Row>, o: seq<Row>, booking: Id, amounts: seq<int>, at: Time, correlation: string,
                       id: Id)
    requires forall k :: 0 <= k < |rows| ==> Shaped(rows[k])
    requires |amounts| == |o| && forall k :: 0 <= k < |o| ==> o[k] in rows && IsOriginal(o[k], booking)
    ensures var v := ReversalRows(o, amounts, at, correlation, id);
            forall j :: 0 <= j < |v| ==>
              Shaped(v[j]) && ReversesOneOf(v[j], rows) && v[j].id == id + j
              && v[j].settlement == None && v[j].payout == None && v[j].effectiveAt == at
  {
  }

  lemma ReversalsPost(rows: seq<Row>, o: seq<Row>, booking: Id, amounts: seq<int>, at: Time, correlation: string,
                      id: Id)
    requires forall k :: 0 <= k < |rows| ==> Shaped(rows[k])
    requires |amounts| == |o| && forall k :: 0 <= k < |o| ==> o[k] in rows && IsOriginal(o[k], booking)
    requires JournalError(ReversalRows(o, amounts, at, correlation, id)) == None
    ensures var v := ReversalRows(o, amounts, at, correlation, id);
            Posting(v, id) && forall j :: 0 <= j < |v| ==> ReversesOneOf(v[j], rows)
  {
    JournalAccepted(ReversalRows(o, amounts, at, correlation, id));
    ReversalsShape(rows, o, booking, amounts, at, correlation, id);
  }

  /** A cancellation of nothing appends nothing; any other appends the reversals of the split. */
  lemma PostingIs(rows: seq<Row>, b: Snapshot, percent: int, at: Time, correlation: string, id: Id)
    requires CancellationPosting(rows, b, percent, at, correlation, id).Ok?
    ensures 0 <= percent <= 100
    ensures var posted, o := CancellationPosting(rows, b, percent, at, correlation, id).value, Originals(rows, b.booking);
            if percent == 0 then posted == []
            else posted == ReversalRows(o, Scaled(Legs(o), percent), at, correlation, id) && OriginalsError(rows, b, o) == None
  {
  }

  lemma CancellationIs(rows: seq<Row>, b: Snapshot, percent: int, at: Time, correlation: string,
                       id: Id) returns (amounts: seq<int>)
    requires CancellationPosting(rows, b, percent, at, correlation, id).Ok?
    requires CancellationPosting(rows, b, percent, at, correlation, id).value != []
    ensures |amounts| == |Originals(rows, b.booking)|
    ensures var v := ReversalRows(Originals(rows, b.booking), amounts, at, correlation, id);
            CancellationPosting(rows, b, percent, at, correlation, id).value == v && JournalError(v) == None
  {
    PostingIs(rows, b, percent, at, correlation, id);
    amounts := Scaled(Legs(Originals(rows, b.booking)), percent);
  }

  /** Whatever `postCancellation` appends is a journal of reversals of rows the ledger holds. */
  lemma CancellationPosts(rows: seq<Row>, b: Snapshot, percent: int, at: Time, correlation: string, id: Id)
    requires forall k :: 0 <= k < |rows| ==> Shaped(rows[k])
    requires CancellationPosting(rows, b, percent, at, correlation, id).Ok?
    requires CancellationPosting(rows, b, percent, at, correlation, id).value != []
    ensures Posting(CancellationPosting(rows, b, percent, at, correlation, id).value, id)
    ensures forall j :: 0 <= j < |CancellationPosting(rows, b, percent, at, correlation, id).value| ==>
              ReversesOneOf(CancellationPosting(rows, b, percent, at, correlation, id).value[j], rows)
  {
    var amounts := CancellationIs(rows, b, percent, at, correlation, id);
    ReversalsPost(rows, Originals(rows, b.booking), b.booking, amounts, at, correlation, id);
  }

  /** `reversal` points at `original` and sits in the same booking and financial scope. */
  predicate ReversalOf(reversal: Row, original: Row) {
    && IsOriginal(original, reversal.booking)
    && reversal.reverses == Some(original.id) && reversal.originalComponent == original.component
    && reversal.partner == original.partner && reversal.venue == original.venue
    && reversal.contract == original.contract && reversal.environment == original.environment
  }

  // ----------------------------------------------------------------- adjustments

  function AdjustmentRow(b: Snapshot, line: Line, at: Time, correlation: string, id: Id): Row
    requires b.partner.Some? && b.contract.Some?
  {
    Row(id, b.booking, b.partner.value, b.venue, b.contract.value, None, None, None, b.environment,
        AdjustmentEntry, line.direction, line.amount, at, correlation, Some(line.component), None)
  }

  function AdjustmentRows(b: Snapshot, lines: seq<Line>, at: Time, correlation: string, id: Id): seq<Row>
    requires b.partner.Some? && b.contract.Some?
  {
    seq(|lines|, k requires 0 <= k < |lines| => AdjustmentRow(b, lines[k], at, correlation, id + k))
  }

  /** The rows `postAdjustment` appends, or why it refuses; the amounts of `b` are not read. */
  function AdjustmentPosting(b: Snapshot, lines: seq<Line>, reason: string, evidence: string, at: Time,
                             correlation: string, id: Id): Result<seq<Row>, LedgerError>
  {
    if reason == "" || evidence == "" then Err(FieldRequired)
    else if exists k :: 0 <= k < |lines| && !Known(lines[k].component) then Err(InvalidAdjustmentComponent)
    else if lines == [] then Err(LedgerJournalIncomplete)
    else if b.partner == None || b.contract == None then Err(FinancialScopeRequired)
    else if correlation == "" then Err(FieldRequired)
    else
      var rows := AdjustmentRows(b, lines, at, correlation, id);
      if JournalError(rows).Some? then Err(JournalError(rows).value) else Ok(rows)
  }

  lemma AdjustmentRowsPost(b: Snapshot, lines: seq<Line>, at: Time, correlation: string, id: Id)
    requires b.partner.Some? && b.contract.Some? && forall k :: 0 <= k < |lines| ==> Known(lines[k].component)
    requires JournalError(AdjustmentRows(b, lines, at, correlation, id)) == None
    ensures Posting(AdjustmentRows(b, lines, at, correlation, id), id)
  {
    JournalAccepted(AdjustmentRows(b, lines, at, correlation, id));
  }

  /** An accepted adjustment is a balanced journal of adjustment rows. */
  lemma AdjustmentPosts(b: Snapshot, lines: seq<Line>, reason: string, evidence: string, at: Time,
                        correlation: string, id: Id)
    requires AdjustmentPosting(b, lines, reason, evidence, at, correlation, id).Ok?
    ensures var v := AdjustmentPosting(b, lines, reason, evidence, at, correlation, id).value;
            Posting(v, id) && |v| == |lines| && (forall k :: 0 <= k < |v| ==>
              v[k].entryType.AdjustmentEntry? && v[k].booking == b.booking && Some(v[k].partner) == b.partner
              && v[k].environment == b.environment && v[k].effectiveAt == at)
  {
    AdjustmentRowsPost(b, lines, at, correlation, id);
  }
}
