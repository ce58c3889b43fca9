/**
 What every transaction of the financial close keeps: journals stay whole, stored totals
 stay equal to the rows allocated to them, and statuses stay in step with reconciliations.
 */
module BooksInvariant {
  import opened Base
  import opened Money
  import opened LedgerTypes
  import opened Aggregates
  import opened Books
  import L = Ledger

  // ------------------------------------------------------------------- the invariant

  predicate IdsIncrease(rows: seq<Row>, next: Id) {
    (forall i, j :: 0 <= i < j < |rows| ==> rows[i].id < rows[j].id)
    && (forall i :: 0 <= i < |rows| ==> rows[i].id < next)
  }

  /** Every reversal points at an original of its own booking and scope that the ledger holds. */
  predicate References(rows: seq<Row>) {
    forall k :: 0 <= k < |rows| && rows[k].reverses.Some? ==> L.ReversesOneOf(rows[k], rows)
  }

  predicate LedgerOk(batches: seq<seq<Row>>, next: Id) {
    Journals(batches) && IdsIncrease(Flatten(batches), next) && References(Flatten(batches))
  }

  /** A row's settlement exists and is its partner's; a payout has exactly its venue's rows of its settlement. */
  predicate Allocated(rows: seq<Row>, settlements: map<Id, Settlement>, payouts: map<Id, Payout>) {
    && (forall k :: 0 <= k < |rows| && rows[k].settlement.Some? ==>
          rows[k].settlement.value in settlements
          && settlements[rows[k].settlement.value].partner == rows[k].partner
          && settlements[rows[k].settlement.value].environment == rows[k].environment)
    && (forall k :: 0 <= k < |rows| && rows[k].payout.Some? ==> rows[k].payout.value in payouts)
    && (forall p, k :: p in payouts && 0 <= k < |rows| ==> (Hits(OfPayout(p), rows[k]) <==>
          Hits(OfSettlementVenue(payouts[p].settlement, payouts[p].venue), rows[k])))
  }

  predicate StoredTotals(rows: seq<Row>, settlements: map<Id, Settlement>) {
    forall s :: s in settlements ==> settlements[s].totals == Totalled(Select(rows, OfSettlement(s)))
  }

  predicate StoredPayouts(rows: seq<Row>, payouts: map<Id, Payout>) {
    forall p :: p in payouts ==> payouts[p].amount == Totalled(Select(rows, OfPayout(p))).net && payouts[p].amount > 0
  }

  /** The unique indexes on payouts. */
  predicate PayoutsUnique(payouts: map<Id, Payout>) {
    forall p, q :: p in payouts && q in payouts && p != q ==>
      (payouts[p].settlement != payouts[q].settlement || payouts[p].venue != payouts[q].venue)
      && payouts[p].key != payouts[q].key
      && (payouts[p].environment != payouts[q].environment || payouts[p].bankReference == None
          || payouts[p].bankReference != payouts[q].bankReference)
  }

  /** At most one reconciliation per settlement, and none without its settlement. */
  predicate OneRecordEach(records: seq<Reconciliation>, settlements: map<Id, Settlement>) {
    && (forall i, j :: 0 <= i < j < |records| ==> records[i].settlement != records[j].settlement)
    && (forall i :: 0 <= i < |records| ==> records[i].settlement in settlements)
  }

  function RecordOf(records: seq<Reconciliation>, s: Id): Option<Reconciliation> {
    match Latest(records, s)
    case None => None
    case Some(k) => Some(records[k])
  }

  /** How a settlement's status, its completion date and its reconciliation belong together. */
  predicate Standing(st: Settlement, record: Option<Reconciliation>) {
    && (st.completedAt.Some? <==> st.status == Completed)
    && (record.Some? && record.value.status == Matched ==> record.value.reported == st.totals.net)
    && (record.Some? && record.value.status != Matched ==> record.value.reported != st.totals.net)
    && match st.status
       case Draft => record == None
       case PendingFunds => record == None
       case Reconciling => record.Some? && record.value.status == Mismatch
       case Reconciled => record.Some? && record.value.status != Mismatch
       case Completed => record.Some? && record.value.status != Mismatch
  }

  predicate Standings(settlements: map<Id, Settlement>, records: seq<Reconciliation>) {
    forall s :: s in settlements ==> Standing(settlements[s], RecordOf(records, s))
  }

  predicate PaidAfterCompletion(settlements: map<Id, Settlement>, payouts: map<Id, Payout>) {
    forall p :: p in payouts ==>
      payouts[p].settlement in settlements
      && settlements[payouts[p].settlement].status == Completed
      && settlements[payouts[p].settlement].environment == payouts[p].environment
  }

  predicate DocumentsOld(settlements: map<Id, Settlement>, payouts: map<Id, Payout>, next: Id) {
    (forall s :: s in settlements ==> s < next) && (forall p :: p in payouts ==> p < next)
  }

  /** The rows against the documents that took them. */
  predicate RowsInv(rows: seq<Row>, settlements: map<Id, Settlement>, payouts: map<Id, Payout>) {
    Allocated(rows, settlements, payouts) && StoredTotals(rows, settlements) && StoredPayouts(rows, payouts)
  }

  /** The documents among themselves. */
  predicate DocsInv(settlements: map<Id, Settlement>, records: seq<Reconciliation>, payouts: map<Id, Payout>,
                    next: Id) {
    && OneRecordEach(records, settlements)
    && Standings(settlements, records)
    && PaidAfterCompletion(settlements, payouts)
    && PayoutsUnique(payouts)
    && DocumentsOld(settlements, payouts, next)
  }

  predicate Inv(b: Books) {
    && LedgerOk(b.batches, b.nextId)
    && RowsInv(Rows(b), b.settlements, b.payouts)
    && DocsInv(b.settlements, b.reconciliations, b.payouts, b.nextId)
  }

  // ------------------------------------------------------------------------- postings

  lemma AppendRows(b: Books, posted: seq<Row>)
    ensures Rows(Append(b, posted)) == Rows(b) + posted
  {
  }

  lemma ReferencesGrow(rows: seq<Row>, posted: seq<Row>)
    requires References(rows)
    requires forall k :: 0 <= k < |posted| && posted[k].reverses.Some? ==> L.ReversesOneOf(posted[k], rows)
    ensures References(rows + posted)
  {
    var all := rows + posted;
    forall k | 0 <= k < |all| && all[k].reverses.Some?
      ensures L.ReversesOneOf(all[k], all)
    {
      assert L.ReversesOneOf(all[k], rows);
      var m :| 0 <= m < |rows| && L.ReversalOf(all[k], rows[m]);
      assert all[m] == rows[m];
    }
  }

  /** Rows no settlement has taken change no stored total. */
  lemma UnsettledRowsInvisible(rows: seq<Row>, posted: seq<Row>, q: Query)
    requires q.OfSettlement? || q.OfPayout? || q.OfSettlementVenue?
    requires forall k :: 0 <= k < |posted| ==> posted[k].settlement == None && posted[k].payout == None
    ensures Select(rows + posted, q) == Select(rows, q)
  {
    SelectAppend(rows, posted, q);
    SelectAll(posted, q, false);
  }

  lemma PostingKeepsLedger(b: Books, posted: seq<Row>)
    requires LedgerOk(b.batches, b.nextId) && Posting(posted, b.nextId)
    requires forall k :: 0 <= k < |posted| && posted[k].reverses.Some? ==> L.ReversesOneOf(posted[k], Rows(b))
    ensures LedgerOk(Append(b, posted).batches, Append(b, posted).nextId)
  {
    AppendRows(b, posted);
    ReferencesGrow(Rows(b), posted);
  }

  lemma PostingAllocated(rows: seq<Row>, posted: seq<Row>, settlements: map<Id, Settlement>, payouts: map<Id, Payout>)
    requires Allocated(rows, settlements, payouts)
    requires forall k :: 0 <= k < |posted| ==> posted[k].settlement == None && posted[k].payout == None
    ensures Allocated(rows + posted, settlements, payouts)
  {
  }

  lemma PostingTotals(rows: seq<Row>, posted: seq<Row>, settlements: map<Id, Settlement>, payouts: map<Id, Payout>)
    requires RowsInv(rows, settlements, payouts)
    requires forall k :: 0 <= k < |posted| ==> posted[k].settlement == None && posted[k].payout == None
    ensures RowsInv(rows + posted, settlements, payouts)
  {
    PostingAllocated(rows, posted, settlements, payouts);
    forall s | s in settlements
      ensures settlements[s].totals == Totalled(Select(rows + posted, OfSettlement(s)))
    {
      UnsettledRowsInvisible(rows, posted, OfSettlement(s));
    }
    forall p | p in payouts
      ensures payouts[p].amount == Totalled(Select(rows + posted, OfPayout(p))).net
    {
      UnsettledRowsInvisible(rows, posted, OfPayout(p));
    }
  }

  /** Appending a journal keeps everything. */
  lemma PostingKeeps(b: Books, posted: seq<Row>)
    requires Inv(b) && Posting(posted, b.nextId)
    requires forall k :: 0 <= k < |posted| && posted[k].reverses.Some? ==> L.ReversesOneOf(posted[k], Rows(b))
    ensures Inv(Append(b, posted))
  {
    PostingKeepsLedger(b, posted);
    AppendRows(b, posted);
    PostingTotals(Rows(b), posted, b.settlements, b.payouts);
  }

  lemma PostBookingKeeps(b: Books, s: Snapshot, at: Time, correlation: string)
    requires Inv(b) && PostBooking(b, s, at, correlation).Ok?
    ensures Inv(PostBooking(b, s, at, correlation).value)
  {
    L.BookingAccepted(s, at, correlation, b.nextId);
    PostingKeeps(b, L.BookingRows(s, at, correlation, b.nextId));
  }

  lemma PostCancellationKeeps(b: Books, s: Snapshot, percent: int, at: Time, correlation: string)
    requires Inv(b) && PostCancellation(b, s, percent, at, correlation).Ok?
    ensures Inv(PostCancellation(b, s, percent, at, correlation).value)
  {
    var posted := L.CancellationPosting(Rows(b), s, percent, at, correlation, b.nextId).value;
    if posted != [] {
      FlattenShaped(b.batches);
      L.CancellationPosts(Rows(b), s, percent, at, correlation, b.nextId);
      PostingKeeps(b, posted);
    }
  }

  lemma AdjustmentIs(b: Books, s: Id, booking: Option<Snapshot>, lines: seq<Line>, reason: string, evidence: string,
                     effectiveAt: Time, correlation: string, now: Time) returns (posted: seq<Row>)
    requires RecordAdjustment(b, s, booking, lines, reason, evidence, effectiveAt, correlation, now).Ok?
    ensures RecordAdjustment(b, s, booking, lines, reason, evidence, effectiveAt, correlation, now).value == Append(b, posted)
    ensures Posting(posted, b.nextId) && forall k :: 0 <= k < |posted| ==> posted[k].reverses == None && posted[k].entryType.AdjustmentEntry?
  {
    posted := L.AdjustmentPosting(booking.value, lines, reason, evidence, effectiveAt, correlation, b.nextId).value;
    L.AdjustmentPosts(booking.value, lines, reason, evidence, effectiveAt, correlation, b.nextId);
  }

  lemma RecordAdjustmentKeeps(b: Books, s: Id, booking: Option<Snapshot>, lines: seq<Line>, reason: string,
                              evidence: string, effectiveAt: Time, correlation: string, now: Time)
    requires Inv(b) && RecordAdjustment(b, s, booking, lines, reason, evidence, effectiveAt, correlation, now).Ok?
    ensures Inv(RecordAdjustment(b, s, booking, lines, reason, evidence, effectiveAt, correlation, now).value)
  {
    var posted := AdjustmentIs(b, s, booking, lines, reason, evidence, effectiveAt, correlation, now);
    PostingKeeps(b, posted);
  }

  // ---------------------------------------------------------------------- allocation

  lemma {:induction false} PutFlatten(a: Allocation, batches: seq<seq<Row>>)
    ensures Flatten(PutBatches(a, batches)) == PutAll(a, Flatten(batches))
  {
    if batches != [] {
      var n := |batches| - 1;
      PutFlatten(a, batches[..n]);
      assert PutBatches(a, batches)[..n] == PutBatches(a, batches[..n]);
      assert PutAll(a, Flatten(batches[..n]) + batches[n]) == PutAll(a, Flatten(batches[..n])) + PutAll(a, batches[n]);
    }
  }

  lemma {:induction false} InFlatten(batches: seq<seq<Row>>, n: nat, k: nat)
    requires n < |batches| && k < |batches[n]|
    ensures batches[n][k] in Flatten(batches)
  {
    if n < |batches| - 1 {
      InFlatten(batches[..|batches| - 1], n, k);
    }
  }

  /** `a` takes exactly the rows `q` hits. */
  predicate TakesHits(a: Allocation, q: Query, rows: seq<Row>) {
    forall k :: 0 <= k < |rows| ==> (Takes(a, rows[k]) <==> Hits(q, rows[k]))
  }

  lemma {:induction false} BalancePut(a: Allocation, rows: seq<Row>)
    ensures Balance(PutAll(a, rows)) == Balance(rows)
  {
    if rows != [] {
      var n := |rows| - 1;
      BalancePut(a, rows[..n]);
      assert PutAll(a, rows)[..n] == PutAll(a, rows[..n]);
    }
  }

  lemma PutJournal(a: Allocation, q: Query, batch: seq<Row>)
    requires Journal(batch) && TakesHits(a, q, batch)
    ensures Journal(PutAll(a, batch))
  {
    BalancePut(a, batch);
    forall k | 0 <= k < |batch|
      ensures Shaped(PutAll(a, batch)[k]) && OneJournal(PutAll(a, batch)[k], PutAll(a, batch)[0])
    {
      QueriesTakeJournalsWhole(q, batch[k], batch[0]);
    }
  }

  /** An update that takes what a query hits takes journals whole, so journals stay journals. */
  lemma PutJournals(a: Allocation, q: Query, batches: seq<seq<Row>>)
    requires Journals(batches) && TakesHits(a, q, Flatten(batches))
    ensures Journals(PutBatches(a, batches))
  {
    forall n | 0 <= n < |batches|
      ensures Journal(PutAll(a, batches[n]))
    {
      forall k | 0 <= k < |batches[n]|
        ensures Takes(a, batches[n][k]) <==> Hits(q, batches[n][k])
      {
        InFlatten(batches, n, k);
      }
      PutJournal(a, q, batches[n]);
    }
  }

  lemma PutReferences(a: Allocation, rows: seq<Row>)
    requires References(rows)
    ensures References(PutAll(a, rows))
  {
    var after := PutAll(a, rows);
    forall k | 0 <= k < |after| && after[k].reverses.Some?
      ensures L.ReversesOneOf(after[k], after)
    {
      assert L.ReversesOneOf(rows[k], rows);
      var m :| 0 <= m < |rows| && L.ReversalOf(rows[k], rows[m]);
      assert L.ReversalOf(after[k], after[m]);
    }
  }

  lemma PutKeepsLedger(a: Allocation, q: Query, batches: seq<seq<Row>>, next: Id)
    requires LedgerOk(batches, next) && TakesHits(a, q, Flatten(batches))
    ensures LedgerOk(PutBatches(a, batches), next + 1)
    ensures Flatten(PutBatches(a, batches)) == PutAll(a, Flatten(batches))
  {
    PutFlatten(a, batches);
    PutJournals(a, q, batches);
    PutReferences(a, Flatten(batches));
  }

  lemma {:induction false} TakenIsSelected(a: Allocation, q: Query, rows: seq<Row>)
    requires TakesHits(a, q, rows)
    ensures TakenCount(a, rows) == |Select(rows, q)|
  {
    if rows != [] {
      var n := |rows| - 1;
      assert forall k :: 0 <= k < n ==> rows[..n][k] == rows[k];
      TakenIsSelected(a, q, rows[..n]);
    }
  }

  /** Ids tell rows apart, so updating by the ids of a selection touches the selection and nothing else. */
  lemma IdsPick(rows: seq<Row>, next: Id, q: Query, k: nat)
    requires IdsIncrease(rows, next) && k < |rows|
    ensures rows[k].id in Ids(Select(rows, q)) <==> Hits(q, rows[k])
  {
    SelectMembers(rows, q);
    assert rows[k] in rows;
    if rows[k].id in Ids(Select(rows, q)) {
      var r :| r in Select(rows, q) && r.id == rows[k].id;
      var m :| 0 <= m < |rows| && rows[m] == r;
      assert m == k;
    }
  }

  lemma {:induction false} SelectTwice(rows: seq<Row>, p: Query, q: Query)
    requires forall r :: Hits(q, r) ==> Hits(p, r)
    ensures Select(Select(rows, p), q) == Select(rows, q)
  {
    if rows != [] {
      var n := |rows| - 1;
      SelectTwice(rows[..n], p, q);
      if Hits(p, rows[n]) {
        SelectSnoc(Select(rows[..n], p), rows[n], q);
      }
    }
  }

  // ------------------------------------------------------------------------- generate

  lemma GenerateTakes(b: Books, q: Query, s: Id)
    requires LedgerOk(b.batches, b.nextId) && q.UnsettledIn?
    ensures TakesHits(ToSettlement(Ids(Select(Rows(b), q)), s), q, Rows(b))
  {
    forall k | 0 <= k < |Rows(b)|
      ensures Takes(ToSettlement(Ids(Select(Rows(b), q)), s), Rows(b)[k]) <==> Hits(q, Rows(b)[k])
    {
      IdsPick(Rows(b), b.nextId, q, k);
    }
  }

  lemma PutMoney(a: Allocation, r: Row)
    ensures SameMoney(r, Put(a, r))
  {
  }

  /** An update leaves the totals of a selection alone when it moves no row into or out of it. */
  lemma PutTotal(rows: seq<Row>, a: Allocation, p: Query, q: Query)
    requires forall k :: 0 <= k < |rows| ==> Hits(p, rows[k]) == Hits(q, Put(a, rows[k]))
    ensures Totalled(Select(rows, p)) == Totalled(Select(PutAll(a, rows), q))
  {
    forall k | 0 <= k < |rows|
      ensures SameMoney(rows[k], PutAll(a, rows)[k])
    {
      PutMoney(a, rows[k]);
    }
    SameTotals(rows, p, PutAll(a, rows), q);
  }

  lemma SettleRow(a: Allocation, q: Query, r: Row, other: Query)
    requires q.UnsettledIn? && a.ToSettlement? && (Takes(a, r) <==> Hits(q, r)) && r.settlement != Some(a.settlement)
    requires other.OfPayout? || (other.OfSettlement? && other.settlement != a.settlement)
             || (other.OfSettlementVenue? && other.settlement != a.settlement)
    ensures Hits(other, r) == Hits(other, Put(a, r))
    ensures Hits(q, r) == Hits(OfSettlement(a.settlement), Put(a, r))
  {
  }

  /** Settling the rows of `q` into the new settlement `s` leaves every other selection's totals alone. */
  lemma GenerateTotals(rows: seq<Row>, a: Allocation, q: Query, settlements: map<Id, Settlement>,
                       payouts: map<Id, Payout>)
    requires q.UnsettledIn? && a.ToSettlement? && a.settlement !in settlements
    requires TakesHits(a, q, rows) && Allocated(rows, settlements, payouts)
    requires StoredTotals(rows, settlements) && StoredPayouts(rows, payouts)
    ensures StoredTotals(PutAll(a, rows), settlements) && StoredPayouts(PutAll(a, rows), payouts)
  {
    forall t | t in settlements
      ensures settlements[t].totals == Totalled(Select(PutAll(a, rows), OfSettlement(t)))
    {
      forall k | 0 <= k < |rows|
        ensures Hits(OfSettlement(t), rows[k]) == Hits(OfSettlement(t), Put(a, rows[k]))
      {
        SettleRow(a, q, rows[k], OfSettlement(t));
      }
      PutTotal(rows, a, OfSettlement(t), OfSettlement(t));
    }
    forall p | p in payouts
      ensures payouts[p].amount == Totalled(Select(PutAll(a, rows), OfPayout(p))).net
    {
      forall k | 0 <= k < |rows|
        ensures Hits(OfPayout(p), rows[k]) == Hits(OfPayout(p), Put(a, rows[k]))
      {
        SettleRow(a, q, rows[k], OfPayout(p));
      }
      PutTotal(rows, a, OfPayout(p), OfPayout(p));
    }
  }

  lemma GeneratedTotal(rows: seq<Row>, a: Allocation, q: Query, settlements: map<Id, Settlement>,
                       payouts: map<Id, Payout>)
    requires q.UnsettledIn? && a.ToSettlement? && a.settlement !in settlements
    requires TakesHits(a, q, rows) && Allocated(rows, settlements, payouts)
    ensures Totalled(Select(PutAll(a, rows), OfSettlement(a.settlement))) == Totalled(Select(rows, q))
  {
    forall k | 0 <= k < |rows|
      ensures Hits(q, rows[k]) == Hits(OfSettlement(a.settlement), Put(a, rows[k]))
    {
      SettleRow(a, q, rows[k], OfPayout(0));
    }
    PutTotal(rows, a, q, OfSettlement(a.settlement));
  }

  lemma GenerateAllocated(rows: seq<Row>, a: Allocation, q: Query, settlements: map<Id, Settlement>, s: Id,
                          st: Settlement,
                          payouts: map<Id, Payout>)
    requires q.UnsettledIn? && a.ToSettlement? && a.settlement == s && s !in settlements
    requires st.partner == q.partner && st.environment == q.environment
    requires TakesHits(a, q, rows) && Allocated(rows, settlements, payouts)
    requires forall p :: p in payouts ==> payouts[p].settlement in settlements
    ensures Allocated(PutAll(a, rows), settlements[s := st], payouts)
  {
    var after := PutAll(a, rows);
    forall p, k | p in payouts && 0 <= k < |after|
      ensures Hits(OfPayout(p), after[k])
         <==> Hits(OfSettlementVenue(payouts[p].settlement, payouts[p].venue), after[k])
    {
      assert Hits(OfPayout(p), rows[k]) <==> Hits(OfSettlementVenue(payouts[p].settlement, payouts[p].venue), rows[k]);
    }
  }

  lemma GenerateDocs(settlements: map<Id, Settlement>, records: seq<Reconciliation>, payouts: map<Id, Payout>, s: Id,
                     st: Settlement)
    requires DocsInv(settlements, records, payouts, s)
    requires st.status == Draft && st.completedAt == None
    ensures DocsInv(settlements[s := st], records, payouts, s + 1)
  {
  }

  lemma GenerateRows(rows: seq<Row>, a: Allocation, q: Query, settlements: map<Id, Settlement>, st: Settlement,
                     payouts: map<Id, Payout>)
    requires q.UnsettledIn? && a.ToSettlement? && a.settlement !in settlements
    requires TakesHits(a, q, rows) && RowsInv(rows, settlements, payouts)
    requires forall p :: p in payouts ==> payouts[p].settlement in settlements
    requires st.partner == q.partner && st.environment == q.environment && st.totals == Totalled(Select(rows, q))
    ensures RowsInv(PutAll(a, rows), settlements[a.settlement := st], payouts)
  {
    GenerateAllocated(rows, a, q, settlements, a.settlement, st, payouts);
    GenerateTotals(rows, a, q, settlements, payouts);
    GeneratedTotal(rows, a, q, settlements, payouts);
  }

  /** What a successful `generate` writes. */
  lemma GenerateIs(b: Books, partner: Id, environment: Environment, from: Time, to: Time, contracts: map<Id, Terms>)
    returns (st: Settlement)
    requires Generate(b, partner, environment, from, to, contracts).Ok?
    ensures var entries := Select(Rows(b), UnsettledIn(partner, environment, from, to));
            Generate(b, partner, environment, from, to, contracts).value
            == b.(batches := PutBatches(ToSettlement(Ids(entries), b.nextId), b.batches), nextId := b.nextId + 1,
                  settlements := b.settlements[b.nextId := st])
            && st.totals == Aggregate(entries, ByIds(Rows(b), MissingRefs(entries)))
    ensures st.partner == partner && st.environment == environment && st.status == Draft && st.completedAt == None
  {
    st := Drafted(b, Select(Rows(b), UnsettledIn(partner, environment, from, to)), contracts, partner, environment, from, to);
  }

  lemma GenerateKeeps(b: Books, partner: Id, environment: Environment, from: Time, to: Time, contracts: map<Id, Terms>)
    requires Inv(b) && Generate(b, partner, environment, from, to, contracts).Ok?
    ensures Inv(Generate(b, partner, environment, from, to, contracts).value)
  {
    var q := UnsettledIn(partner, environment, from, to);
    var entries := Select(Rows(b), q);
    var st := GenerateIs(b, partner, environment, from, to, contracts);
    SettledKeeps(b, q, ToSettlement(Ids(entries), b.nextId), st) by {
      GenerateTakes(b, q, b.nextId);
      SelectionNetsOut(b.batches, q, ByIds(Rows(b), MissingRefs(entries)));
    }
  }

  lemma SettledKeeps(b: Books, q: Query, a: Allocation, st: Settlement)
    requires Inv(b) && q.UnsettledIn? && a.ToSettlement? && a.settlement == b.nextId && TakesHits(a, q, Rows(b))
    requires st.status == Draft && st.completedAt == None
    requires st.partner == q.partner && st.environment == q.environment && st.totals == Totalled(Select(Rows(b), q))
    ensures Inv(b.(batches := PutBatches(a, b.batches), nextId := b.nextId + 1,
                   settlements := b.settlements[b.nextId := st]))
  {
    PutKeepsLedger(a, q, b.batches, b.nextId);
    GenerateRows(Rows(b), a, q, b.settlements, st, b.payouts);
    GenerateDocs(b.settlements, b.reconciliations, b.payouts, b.nextId, st);
  }

  // ------------------------------------------------------------- settlement statuses

  lemma ReviseRows(rows: seq<Row>, settlements: map<Id, Settlement>, s: Id, st: Settlement, payouts: map<Id, Payout>)
    requires RowsInv(rows, settlements, payouts) && s in settlements
    requires st.partner == settlements[s].partner && st.environment == settlements[s].environment
    requires st.totals == settlements[s].totals
    ensures RowsInv(rows, settlements[s := st], payouts)
  {
  }

  lemma ReviseDocs(settlements: map<Id, Settlement>, s: Id, st: Settlement, before: seq<Reconciliation>,
                   records: seq<Reconciliation>, payouts: map<Id, Payout>, next: Id)
    requires DocsInv(settlements, before, payouts, next) && s in settlements && settlements[s].status != Completed
    requires OneRecordEach(records, settlements) && Standing(st, RecordOf(records, s))
    requires forall t :: t in settlements && t != s ==> RecordOf(records, t) == RecordOf(before, t)
    ensures DocsInv(settlements[s := st], records, payouts, next)
  {
  }

  /** A settlement's status and date may change; whose it is and what it totals may not. */
  lemma ReviseKeeps(b: Books, s: Id, st: Settlement, records: seq<Reconciliation>)
    requires Inv(b) && s in b.settlements && b.settlements[s].status != Completed
    requires st.partner == b.settlements[s].partner && st.environment == b.settlements[s].environment
    requires st.totals == b.settlements[s].totals
    requires OneRecordEach(records, b.settlements)
    requires Standing(st, RecordOf(records, s))
    requires forall t :: t in b.settlements && t != s ==> RecordOf(records, t) == RecordOf(b.reconciliations, t)
    ensures Inv(b.(settlements := b.settlements[s := st], reconciliations := records))
  {
    ReviseRows(Rows(b), b.settlements, s, st, b.payouts);
    ReviseDocs(b.settlements, s, st, b.reconciliations, records, b.payouts, b.nextId);
  }

  lemma SubmitKeeps(b: Books, s: Id)
    requires Inv(b) && Submit(b, s).Ok?
    ensures Inv(Submit(b, s).value)
  {
    ReviseKeeps(b, s, b.settlements[s].(status := PendingFunds), b.reconciliations);
  }

  lemma Appended(settlements: map<Id, Settlement>, records: seq<Reconciliation>, record: Reconciliation)
    requires OneRecordEach(records, settlements) && record.settlement in settlements
    requires RecordOf(records, record.settlement) == None
    ensures OneRecordEach(records + [record], settlements)
    ensures forall t :: RecordOf(records + [record], t) == if record.settlement == t then Some(record) else RecordOf(records, t)
  {
  }

  lemma ReconcileKeeps(b: Books, s: Id, reported: int, bankReference: string, evidence: string, notes: string)
    requires Inv(b) && Reconcile(b, s, reported, bankReference, evidence, notes).Ok?
    ensures Inv(Reconcile(b, s, reported, bankReference, evidence, notes).value)
  {
    var matched := reported == b.settlements[s].totals.net;
    var record := Reconciliation(s, reported, bankReference, if matched then Matched else Mismatch, evidence, notes);
    assert Standing(b.settlements[s], RecordOf(b.reconciliations, s));
    Appended(b.settlements, b.reconciliations, record);
    ReviseKeeps(b, s, b.settlements[s].(status := if matched then Reconciled else Reconciling),
                b.reconciliations + [record]);
  }

  lemma {:induction false} LatestReplaced(records: seq<Reconciliation>, k: nat, record: Reconciliation, t: Id)
    requires k < |records| && record.settlement == records[k].settlement
    ensures Latest(records[k := record], t) == Latest(records, t)
  {
    if k < |records| - 1 {
      assert records[k := record][..|records| - 1] == records[..|records| - 1][k := record];
      LatestReplaced(records[..|records| - 1], k, record, t);
    } else {
      assert records[k := record][..|records| - 1] == records[..|records| - 1];
    }
  }

  lemma Replaced(settlements: map<Id, Settlement>, records: seq<Reconciliation>, k: nat, record: Reconciliation)
    requires OneRecordEach(records, settlements) && k < |records| && record.settlement == records[k].settlement
    requires Latest(records, record.settlement) == Some(k)
    ensures OneRecordEach(records[k := record], settlements)
    ensures forall t :: RecordOf(records[k := record], t) == if t == record.settlement then Some(record) else RecordOf(records, t)
  {
    forall t
      ensures RecordOf(records[k := record], t) == if t == record.settlement then Some(record) else RecordOf(records, t)
    {
      LatestReplaced(records, k, record, t);
    }
  }

  lemma ResolveKeeps(b: Books, s: Id, evidence: string, notes: string)
    requires Inv(b) && Resolve(b, s, evidence, notes).Ok?
    ensures Inv(Resolve(b, s, evidence, notes).value)
  {
    var k := Latest(b.reconciliations, s).value;
    var record := b.reconciliations[k].(status := Resolved, evidence := evidence, notes := notes);
    assert Standing(b.settlements[s], RecordOf(b.reconciliations, s));
    Replaced(b.settlements, b.reconciliations, k, record);
    ReviseKeeps(b, s, b.settlements[s].(status := Reconciled), b.reconciliations[k := record]);
  }

  lemma CompleteKeeps(b: Books, s: Id, now: Time)
    requires Inv(b) && Complete(b, s, now).Ok?
    ensures Inv(Complete(b, s, now).value)
  {
    assert Standing(b.settlements[s], RecordOf(b.reconciliations, s));
    ReviseKeeps(b, s, b.settlements[s].(status := Completed, completedAt := Some(now)), b.reconciliations);
  }

  // -------------------------------------------------------------------------- payouts

  /** While a settlement's venue has no payout, all of its rows are payable. */
  lemma AllPayable(rows: seq<Row>, settlements: map<Id, Settlement>, payouts: map<Id, Payout>, s: Id, v: Id, r: Row)
    requires Allocated(rows, settlements, payouts) && r in rows
    requires forall p :: p in payouts ==> payouts[p].settlement != s || payouts[p].venue != v
    ensures Hits(PayableOf(s, v), r) == Hits(OfSettlementVenue(s, v), r)
  {
  }

  /** What the payout transaction reads: the venue's rows, all of them eligible. */
  lemma Eligible(b: Books, s: Id, v: Id)
    ensures Select(Select(Rows(b), OfSettlementVenue(s, v)), PayableOf(s, v)) == Select(Rows(b), PayableOf(s, v))
  {
    SelectTwice(Rows(b), OfSettlementVenue(s, v), PayableOf(s, v));
  }

  lemma PayoutTakes(b: Books, s: Id, v: Id, p: Id)
    requires LedgerOk(b.batches, b.nextId)
    ensures var q := PayableOf(s, v); TakesHits(ToPayout(Ids(Select(Rows(b), q)), s, v, p), q, Rows(b))
  {
    var q := PayableOf(s, v);
    forall k | 0 <= k < |Rows(b)|
      ensures Takes(ToPayout(Ids(Select(Rows(b), q)), s, v, p), Rows(b)[k]) <==> Hits(q, Rows(b)[k])
    {
      IdsPick(Rows(b), b.nextId, q, k);
    }
  }

  lemma PayRow(a: Allocation, r: Row, p: Query)
    requires a.ToPayout? && (Takes(a, r) <==> Hits(PayableOf(a.settlement, a.venue), r)) && r.payout != Some(a.payout)
    requires p.OfSettlement? || p.OfSettlementVenue? || (p.OfPayout? && p.payout != a.payout)
    ensures Hits(p, r) == Hits(p, Put(a, r))
    ensures Hits(PayableOf(a.settlement, a.venue), r) == Hits(OfPayout(a.payout), Put(a, r))
  {
  }

  lemma PayoutTotals(rows: seq<Row>, a: Allocation, settlements: map<Id, Settlement>, payouts: map<Id, Payout>)
    requires a.ToPayout? && a.payout !in payouts
    requires TakesHits(a, PayableOf(a.settlement, a.venue), rows) && Allocated(rows, settlements, payouts)
    requires StoredTotals(rows, settlements) && StoredPayouts(rows, payouts)
    ensures StoredTotals(PutAll(a, rows), settlements) && StoredPayouts(PutAll(a, rows), payouts)
  {
    forall t | t in settlements
      ensures settlements[t].totals == Totalled(Select(PutAll(a, rows), OfSettlement(t)))
    {
      forall k | 0 <= k < |rows|
        ensures Hits(OfSettlement(t), rows[k]) == Hits(OfSettlement(t), Put(a, rows[k]))
      {
        PayRow(a, rows[k], OfSettlement(t));
      }
      PutTotal(rows, a, OfSettlement(t), OfSettlement(t));
    }
    forall p | p in payouts
      ensures payouts[p].amount == Totalled(Select(PutAll(a, rows), OfPayout(p))).net
    {
      forall k | 0 <= k < |rows|
        ensures Hits(OfPayout(p), rows[k]) == Hits(OfPayout(p), Put(a, rows[k]))
      {
        PayRow(a, rows[k], OfPayout(p));
      }
      PutTotal(rows, a, OfPayout(p), OfPayout(p));
    }
  }

  lemma PaidTotal(rows: seq<Row>, a: Allocation, settlements: map<Id, Settlement>, payouts: map<Id, Payout>)
    requires a.ToPayout? && a.payout !in payouts
    requires TakesHits(a, PayableOf(a.settlement, a.venue), rows) && Allocated(rows, settlements, payouts)
    ensures Totalled(Select(PutAll(a, rows), OfPayout(a.payout))) == Totalled(Select(rows, PayableOf(a.settlement, a.venue)))
  {
    forall k | 0 <= k < |rows|
      ensures Hits(PayableOf(a.settlement, a.venue), rows[k]) == Hits(OfPayout(a.payout), Put(a, rows[k]))
    {
      PayRow(a, rows[k], OfSettlement(0));
    }
    PutTotal(rows, a, PayableOf(a.settlement, a.venue), OfPayout(a.payout));
  }

  lemma PayoutAllocated(rows: seq<Row>, a: Allocation, settlements: map<Id, Settlement>, payouts: map<Id, Payout>,
                        payout: Payout)
    requires a.ToPayout? && a.payout !in payouts && payout.settlement == a.settlement && payout.venue == a.venue
    requires TakesHits(a, PayableOf(a.settlement, a.venue), rows) && Allocated(rows, settlements, payouts)
    requires forall p :: p in payouts ==> payouts[p].settlement != a.settlement || payouts[p].venue != a.venue
    ensures Allocated(PutAll(a, rows), settlements, payouts[a.payout := payout])
  {
  }

  lemma PayoutRows(rows: seq<Row>, a: Allocation, settlements: map<Id, Settlement>, payouts: map<Id, Payout>,
                   payout: Payout)
    requires a.ToPayout? && a.payout !in payouts && payout.settlement == a.settlement && payout.venue == a.venue
    requires TakesHits(a, PayableOf(a.settlement, a.venue), rows) && RowsInv(rows, settlements, payouts)
    requires forall p :: p in payouts ==> payouts[p].settlement != a.settlement || payouts[p].venue != a.venue
    requires payout.amount == Totalled(Select(rows, PayableOf(a.settlement, a.venue))).net && payout.amount > 0
    ensures RowsInv(PutAll(a, rows), settlements, payouts[a.payout := payout])
  {
    PayoutAllocated(rows, a, settlements, payouts, payout);
    PayoutTotals(rows, a, settlements, payouts);
    PaidTotal(rows, a, settlements, payouts);
  }

  lemma PayoutDocs(settlements: map<Id, Settlement>, records: seq<Reconciliation>, payouts: map<Id, Payout>, p: Id,
                   payout: Payout)
    requires DocsInv(settlements, records, payouts, p)
    requires payout.settlement in settlements && settlements[payout.settlement].status == Completed
    requires payout.environment == settlements[payout.settlement].environment && payout.bankReference == None
    requires forall q :: q in payouts ==> payouts[q].settlement != payout.settlement || payouts[q].venue != payout.venue
    requires forall q :: q in payouts ==> payouts[q].key != payout.key
    ensures DocsInv(settlements, records, payouts[p := payout], p + 1)
  {
  }

  lemma PaidKeeps(b: Books, a: Allocation, payout: Payout)
    requires Inv(b) && a.ToPayout? && a.payout == b.nextId
    requires payout.settlement == a.settlement && payout.venue == a.venue
    requires TakesHits(a, PayableOf(a.settlement, a.venue), Rows(b))
    requires payout.settlement in b.settlements && b.settlements[payout.settlement].status == Completed
    requires payout.environment == b.settlements[payout.settlement].environment && payout.bankReference == None
    requires forall q :: q in b.payouts ==> b.payouts[q].settlement != a.settlement || b.payouts[q].venue != a.venue
    requires forall q :: q in b.payouts ==> b.payouts[q].key != payout.key
    requires payout.amount == Totalled(Select(Rows(b), PayableOf(a.settlement, a.venue))).net && payout.amount > 0
    ensures Inv(b.(batches := PutBatches(a, b.batches), nextId := b.nextId + 1, payouts := b.payouts[b.nextId := payout]))
  {
    PutKeepsLedger(a, PayableOf(a.settlement, a.venue), b.batches, b.nextId);
    PayoutRows(Rows(b), a, b.settlements, b.payouts, payout);
    PayoutDocs(b.settlements, b.reconciliations, b.payouts, b.nextId, payout);
  }

  lemma PayableNetsOut(b: Books, s: Id, v: Id)
    requires Inv(b)
    ensures PayableTotals(b, s, v) == Totalled(Select(Rows(b), PayableOf(s, v))) && Imbalance(PayableTotals(b, s, v)) == 0
  {
    Eligible(b, s, v);
    SelectionNetsOut(b.batches, PayableOf(s, v), ByIds(Rows(b), MissingRefs(Select(Rows(b), PayableOf(s, v)))));
  }

  /** What a successful `initiatePayout` writes for a key it has not seen. */
  lemma NewPayoutIs(b: Books, s: Id, v: Id, account: Id, key: string,
                    gate: Option<FinanceError>) returns (payout: Payout)
    requires NewPayout(b, s, v, account, key, gate).Ok?
    ensures NewPayout(b, s, v, account, key, gate).value
         == b.(batches := PutBatches(ToPayout(Ids(Select(Rows(b), PayableOf(s, v))), s, v, b.nextId), b.batches),
               nextId := b.nextId + 1, payouts := b.payouts[b.nextId := payout])
    ensures s in b.settlements && b.settlements[s].status == Completed && !PayoutFor(b, s, v)
    ensures payout == Payout(s, v, account, b.settlements[s].environment, PayableTotals(b, s, v).net, Pending, key, None, None)
    ensures payout.amount > 0
  {
    Eligible(b, s, v);
    payout := Payout(s, v, account, b.settlements[s].environment, PayableTotals(b, s, v).net, Pending, key, None, None);
  }

  lemma NewPayoutKeeps(b: Books, s: Id, v: Id, account: Id, key: string, gate: Option<FinanceError>)
    requires Inv(b) && NewPayout(b, s, v, account, key, gate).Ok?
    requires forall p :: p in b.payouts ==> b.payouts[p].key != key
    ensures Inv(NewPayout(b, s, v, account, key, gate).value)
  {
    var payout := NewPayoutIs(b, s, v, account, key, gate);
    PayableNetsOut(b, s, v);
    PayoutTakes(b, s, v, b.nextId);
    PaidKeeps(b, ToPayout(Ids(Select(Rows(b), PayableOf(s, v))), s, v, b.nextId), payout);
  }

  lemma InitiatePayoutKeeps(b: Books, s: Id, v: Id, account: Id, key: string, gate: Option<FinanceError>)
    requires Inv(b) && InitiatePayout(b, s, v, account, key, gate).Ok?
    ensures Inv(InitiatePayout(b, s, v, account, key, gate).value)
  {
    if !(exists p :: p in b.payouts && b.payouts[p].key == key) {
      NewPayoutKeeps(b, s, v, account, key, gate);
    }
  }

  /** The result of a transfer touches a payout's status and texts only. */
  predicate SameTransfer(a: Payout, b: Payout) {
    a.settlement == b.settlement && a.venue == b.venue && a.account == b.account && a.environment == b.environment
    && a.amount == b.amount && a.key == b.key
  }

  lemma ResultRows(rows: seq<Row>, settlements: map<Id, Settlement>, payouts: map<Id, Payout>, p: Id, payout: Payout)
    requires RowsInv(rows, settlements, payouts) && p in payouts && SameTransfer(payout, payouts[p])
    ensures RowsInv(rows, settlements, payouts[p := payout])
  {
  }

  lemma ResultUnique(payouts: map<Id, Payout>, p: Id, payout: Payout)
    requires PayoutsUnique(payouts) && p in payouts && SameTransfer(payout, payouts[p])
    requires payout.bankReference == None || forall q :: q in payouts && payouts[q].environment == payout.environment ==>
               payouts[q].bankReference != payout.bankReference
    ensures PayoutsUnique(payouts[p := payout])
  {
  }

  lemma ResultDocs(settlements: map<Id, Settlement>, records: seq<Reconciliation>, payouts: map<Id, Payout>, next: Id,
                   p: Id, payout: Payout)
    requires DocsInv(settlements, records, payouts, next) && p in payouts && SameTransfer(payout, payouts[p])
    requires payout.bankReference == None || forall q :: q in payouts && payouts[q].environment == payout.environment ==>
               payouts[q].bankReference != payout.bankReference
    ensures DocsInv(settlements, records, payouts[p := payout], next)
  {
    ResultUnique(payouts, p, payout);
  }

  /** What a recorded transfer result writes. */
  lemma ResultIs(b: Books, p: Id, paid: bool, bankReference: string, failureReason: string) returns (payout: Payout)
    requires RecordPayoutResult(b, p, paid, bankReference, failureReason).Ok?
    ensures p in b.payouts && b.payouts[p].status == Pending && SameTransfer(payout, b.payouts[p])
    ensures RecordPayoutResult(b, p, paid, bankReference, failureReason).value == b.(payouts := b.payouts[p := payout])
    ensures payout.bankReference == (if paid then Some(bankReference) else None)
    ensures paid ==> forall q :: q in b.payouts && b.payouts[q].environment == payout.environment ==>
              b.payouts[q].bankReference != payout.bankReference
  {
    payout := RecordPayoutResult(b, p, paid, bankReference, failureReason).value.payouts[p];
  }

  lemma RecordPayoutResultKeeps(b: Books, p: Id, paid: bool, bankReference: string, failureReason: string)
    requires Inv(b) && RecordPayoutResult(b, p, paid, bankReference, failureReason).Ok?
    ensures Inv(RecordPayoutResult(b, p, paid, bankReference, failureReason).value)
  {
    var payout := ResultIs(b, p, paid, bankReference, failureReason);
    ResultRows(Rows(b), b.settlements, b.payouts, p, payout);
    ResultDocs(b.settlements, b.reconciliations, b.payouts, b.nextId, p, payout);
  }
}
