/**
 The financial close as it runs: a store that its transactions update in place, each
 proved to make exactly the step of `Books`, so that the store keeps the invariant of
 `BooksInvariant` through any sequence of calls.
 */
module FinancialClose {
  import opened Base
  import opened Money
  import opened LedgerTypes
  import opened Aggregates
  import opened Books
  import L = Ledger
  import Sp = Split
  import I = BooksInvariant

  /** One row of an update: those before it are written, those after it not yet. */
  lemma UpdateStep(a: Allocation, rows: seq<Row>, k: nat)
    requires k < |rows|
    ensures (PutAll(a, rows[..k]) + rows[k..])[k] == rows[k]
    ensures (PutAll(a, rows[..k]) + rows[k..])[k := Put(a, rows[k])] == PutAll(a, rows[..k + 1]) + rows[k + 1..]
    ensures TakenCount(a, rows[..k + 1]) == TakenCount(a, rows[..k]) + if Takes(a, rows[k]) then 1 else 0
  {
    assert rows[..k + 1][..k] == rows[..k];
    assert rows[k..] == [rows[k]] + rows[k + 1..];
    assert PutAll(a, rows[..k + 1]) == PutAll(a, rows[..k]) + [Put(a, rows[k])];
  }

  class FinanceStore {
    var rows: seq<Row>
    var nextId: Id
    var settlements: map<Id, Settlement>
    var reconciliations: seq<Reconciliation>
    var payouts: map<Id, Payout>
    ghost var batches: seq<seq<Row>>

    ghost predicate Valid()
      reads this
    {
      rows == Flatten(batches)
    }

    ghost function State(): (b: Books)
      reads this
    {
      Books(batches, nextId, settlements, reconciliations, payouts)
    }

    constructor ()
      ensures Valid() && State() == EMPTY
    {
      rows, nextId, settlements, reconciliations, payouts, batches := [], 0, map[], [], map[], [];
    }

    // ------------------------------------------------------------ the ledger repository

    /** `post`: insert the entries of one journal. */
    method Post(entries: seq<Row>)
      requires Valid()
      modifies this
      ensures Valid() && State() == Append(old(State()), entries)
    {
      I.AppendRows(State(), entries);
      if entries != [] {
        rows := rows + entries;
        batches := batches + [entries];
        nextId := nextId + |entries|;
      }
    }

    /** The finders: scan the collection for the rows a filter hits. */
    method Find(q: Query) returns (found: seq<Row>)
      requires Valid()
      ensures found == Select(rows, q)
    {
      found := [];
      for k := 0 to |rows|
        invariant found == Select(rows[..k], q)
      {
        assert rows[..k + 1] == rows[..k] + [rows[k]];
        if Hits(q, rows[k]) {
          found := found + [rows[k]];
        }
      }
      assert rows[..|rows|] == rows;
    }

    method FindByIds(ids: set<Id>) returns (found: seq<Row>)
      requires Valid()
      ensures found == ByIds(rows, ids)
    {
      found := [];
      for k := 0 to |rows|
        invariant found == ByIds(rows[..k], ids)
      {
        assert rows[..k + 1][..k] == rows[..k];
        if rows[k].id in ids {
          found := found + [rows[k]];
        }
      }
      assert rows[..|rows|] == rows;
    }

    /** `updateMany`: write the allocation on every row it takes and count them. */
    method Allocate(a: Allocation) returns (modified: nat)
      requires Valid()
      modifies this`rows, this`batches
      ensures Valid() && batches == PutBatches(a, old(batches))
      ensures modified == TakenCount(a, old(rows))
    {
      modified := Update(a);
      I.PutFlatten(a, batches);
      batches := PutBatches(a, batches);
    }

    method Update(a: Allocation) returns (modified: nat)
      modifies this`rows
      ensures rows == PutAll(a, old(rows)) && modified == TakenCount(a, old(rows))
    {
      modified := 0;
      for k := 0 to |rows|
        invariant |rows| == |old(rows)| && rows == PutAll(a, old(rows)[..k]) + old(rows)[k..]
        invariant modified == TakenCount(a, old(rows)[..k])
      {
        UpdateStep(a, old(rows), k);
        if Takes(a, rows[k]) {
          modified := modified + 1;
        }
        rows := rows[k := Put(a, rows[k])];
      }
      assert old(rows)[..|rows|] == old(rows);
    }

    // ------------------------------------------------------------- the posting methods

    /** `postBooking`. */
    method RecordBooking(s: Snapshot, at: Time, correlation: string) returns (error: Option<FinanceError>)
      requires Valid()
      modifies this
      ensures Valid()
      ensures var r := PostBooking(old(State()), s, at, correlation);
              if r.Ok? then error == None && State() == r.value else error == Some(r.error) && State() == old(State())
    {
      if L.BookingAmountsError(s).Some? { return Some(FromLedger(L.BookingAmountsError(s).value)); }
      if s.partner == None || s.contract == None { return Some(FromLedger(FinancialScopeRequired)); }
      if correlation == "" { return Some(FromLedger(FieldRequired)); }
      var entries := L.BookingRows(s, at, correlation, nextId);
      var wrong := L.ValidateLedgerJournal(entries);
      if wrong.Some? { return Some(FromLedger(wrong.value)); }
      Post(entries);
      return None;
    }

    /** The reversals `postCancellation` builds and checks before it inserts them. */
    method Reversals(s: Snapshot, percent: nat, at: Time, correlation: string)
      returns (wrong: Option<LedgerError>, entries: seq<Row>)
      requires Valid() && 0 < percent <= 100
      ensures var r := L.CancellationPosting(rows, s, percent, at, correlation, nextId);
              if r.Ok? then wrong == None && entries == r.value else wrong == Some(r.error)
    {
      entries := [];
      var originals := L.Originals(rows, s.booking);
      wrong := L.OriginalsError(rows, s, originals);
      if wrong.Some? { return; }
      var amounts := Sp.ScaledBalancedAmounts(L.Legs(originals), percent);
      entries := L.ReversalRows(originals, amounts, at, correlation, nextId);
      if entries == [] { return; }
      if correlation == "" { return Some(FieldRequired), entries; }
      wrong := L.ValidateLedgerJournal(entries);
      if wrong.Some? { return; }
      var valid := L.ValidateReversals(entries, originals);
      if !valid { wrong := Some(InvalidLedgerReversal); }
    }

    /** `postCancellation`. */
    method RecordCancellation(s: Snapshot, percent: int, at: Time,
                              correlation: string) returns (error: Option<FinanceError>)
      requires Valid()
      modifies this
      ensures Valid()
      ensures var r := PostCancellation(old(State()), s, percent, at, correlation);
              if r.Ok? then error == None && State() == r.value else error == Some(r.error) && State() == old(State())
    {
      if !(0 <= percent <= 100) { return Some(FromLedger(InvalidRefundPercent)); }
      if percent == 0 { return None; }
      var wrong, entries := Reversals(s, percent, at, correlation);
      if wrong.Some? { return Some(FromLedger(wrong.value)); }
      Post(entries);
      return None;
    }

    // -------------------------------------------------------------- settlement batches

    /** `hydrateReversalOriginals`: the originals outside the batch, each checked against its reversal. */
    method HydrateReversalOriginals(entries: seq<Row>) returns (originals: Option<seq<Row>>)
      requires Valid()
      ensures originals.Some? <==> ReferencesValid(entries, ByIds(rows, MissingRefs(entries)))
      ensures originals.Some? ==> originals.value == ByIds(rows, MissingRefs(entries))
    {
      var found := FindByIds(MissingRefs(entries));
      for k := 0 to |entries|
        invariant forall m :: 0 <= m < k ==> ReferenceValid(entries[m], entries, found)
      {
        if !ReferenceValid(entries[k], entries, found) {
          return None;
        }
      }
      return Some(found);
    }

    /** The checks of `generate` on the entries, and the settlement they would make. */
    method Batch(entries: seq<Row>, contracts: map<Id, Terms>, partner: Id, environment: Environment, from: Time,
                 to: Time)
      returns (error: Option<FinanceError>, st: Option<Settlement>)
      requires Valid()
      ensures error == BatchError(State(), entries, contracts, partner)
      ensures error == None ==> entries != [] && ContractsKnown(entries, contracts, partner)
                                && st == Some(Drafted(State(), entries, contracts, partner, environment, from, to))
    {
      st := None;
      if entries == [] { return Some(NoUnsettledLedgerEntries), st; }
      var originals := HydrateReversalOriginals(entries);
      if originals == None { return Some(LedgerReversalReferenceInvalid), st; }
      if !ContractsKnown(entries, contracts, partner) { return Some(SettlementContractMismatch), st; }
      if !OneCycle(entries, contracts) { return Some(SettlementCycleConflict), st; }
      var totals := AggregateEntries(entries, originals.value);
      error := TotalsError(totals);
      st := Some(Settlement(partner, environment, from, to, contracts[entries[0].contract].cycle,
                            to + MaxLag(entries, contracts) * DAY_MS, Draft, totals, None));
    }

    /** `generate`. A conflict found after the writes takes them back. */
    method GenerateSettlement(partner: Id, environment: Environment, from: Time, to: Time, contracts: map<Id, Terms>)
      returns (error: Option<FinanceError>)
      requires Valid()
      modifies this
      ensures Valid()
      ensures var r := Generate(old(State()), partner, environment, from, to, contracts);
              if r.Ok? then error == None && State() == r.value else error == Some(r.error) && State() == old(State())
    {
      if from >= to { return Some(InvalidSettlementPeriod); }
      if PeriodTaken(settlements, partner, environment, from, to) { return Some(SettlementAlreadyExists); }
      var entries := Find(UnsettledIn(partner, environment, from, to));
      var st;
      error, st := Batch(entries, contracts, partner, environment, from, to);
      if error == None {
        error := InsertSettlement(st.value, entries);
      }
    }

    /** Insert a settlement and allocate its entries, or leave everything as it was. */
    method InsertSettlement(st: Settlement, entries: seq<Row>) returns (error: Option<FinanceError>)
      requires Valid()
      modifies this
      ensures Valid()
      ensures var a := ToSettlement(Ids(entries), old(nextId));
              if TakenCount(a, old(rows)) != |entries|
              then error == Some(LedgerAllocationConflict) && State() == old(State())
              else error == None && State() == old(State()).(batches := PutBatches(a, old(batches)), nextId := old(nextId) + 1,
                                                             settlements := old(settlements)[old(nextId) := st])
    {
      var before, beforeSettlements, id := rows, settlements, nextId;
      ghost var beforeBatches := batches;
      settlements := settlements[id := st];
      nextId := id + 1;
      var modified := Allocate(ToSettlement(Ids(entries), id));
      if modified != |entries| {
        rows, settlements, nextId, batches := before, beforeSettlements, id, beforeBatches;
        return Some(LedgerAllocationConflict);
      }
      return None;
    }

    // ------------------------------------------------------------- settlement statuses

    /** `transitionSettlement`: compare and set. */
    method Transition(s: Id, from: SettlementStatus, to: SettlementStatus) returns (moved: bool)
      requires Valid()
      modifies this`settlements
      ensures moved <==> s in old(settlements) && old(settlements)[s].status == from
      ensures settlements == if moved then old(settlements)[s := old(settlements)[s].(status := to)] else old(settlements)
    {
      moved := s in settlements && settlements[s].status == from;
      if moved {
        settlements := settlements[s := settlements[s].(status := to)];
      }
    }

    method SubmitSettlement(s: Id) returns (error: Option<FinanceError>)
      requires Valid()
      modifies this
      ensures Valid()
      ensures var r := Submit(old(State()), s);
              if r.Ok? then error == None && State() == r.value else error == Some(r.error) && State() == old(State())
    {
      var moved := Transition(s, Draft, PendingFunds);
      return if moved then None else Some(SettlementNotDraft);
    }

    method ReconcileSettlement(s: Id, reported: int, bankReference: string, evidence: string, notes: string)
      returns (error: Option<FinanceError>)
      requires Valid()
      modifies this
      ensures Valid()
      ensures var r := Reconcile(old(State()), s, reported, bankReference, evidence, notes);
              if r.Ok? then error == None && State() == r.value else error == Some(r.error) && State() == old(State())
    {
      if !(0 <= reported <= MAX_SAFE) || bankReference == "" { return Some(RequestInvalid); }
      if s !in settlements { return Some(SettlementNotFound); }
      if settlements[s].status != PendingFunds { return Some(SettlementNotAwaitingFunds); }
      var matched := reported == settlements[s].totals.net;
      if !matched && notes == "" { return Some(ReconciliationNotesRequired); }
      for k := 0 to |reconciliations|
        invariant forall m :: 0 <= m < k ==> reconciliations[m].settlement != s || reconciliations[m].bankReference != bankReference
      {
        if reconciliations[k].settlement == s && reconciliations[k].bankReference == bankReference {
          return Some(ReconciliationBankReferenceDuplicate);
        }
      }
      var record := Reconciliation(s, reported, bankReference, if matched then Matched else Mismatch, evidence, notes);
      reconciliations := reconciliations + [record];
      var moved := Transition(s, PendingFunds, if matched then Reconciled else Reconciling);
      return None;
    }

    /** The latest reconciliation of a settlement, scanning from the newest. */
    method LatestReconciliation(s: Id) returns (k: Option<nat>)
      requires Valid()
      ensures k == Latest(reconciliations, s)
    {
      var i := |reconciliations|;
      assert reconciliations[..i] == reconciliations;
      while i > 0
        invariant 0 <= i <= |reconciliations|
        invariant Latest(reconciliations, s) == Latest(reconciliations[..i], s)
      {
        i := i - 1;
        assert reconciliations[..i + 1][..i] == reconciliations[..i];
        if reconciliations[i].settlement == s {
          return Some(i);
        }
      }
      return None;
    }

    method ResolveSettlement(s: Id, evidence: string, notes: string) returns (error: Option<FinanceError>)
      requires Valid()
      modifies this
      ensures Valid()
      ensures var r := Resolve(old(State()), s, evidence, notes);
              if r.Ok? then error == None && State() == r.value else error == Some(r.error) && State() == old(State())
    {
      if notes == "" || evidence == "" { return Some(RequestInvalid); }
      if s !in settlements { return Some(SettlementNotFound); }
      if settlements[s].status != Reconciling { return Some(StateConflict); }
      var k := LatestReconciliation(s);
      if k == None || reconciliations[k.value].status != Mismatch { return Some(ReconciliationNotMismatched); }
      var record := reconciliations[k.value].(status := Resolved, evidence := evidence, notes := notes);
      reconciliations := reconciliations[k.value := record];
      var moved := Transition(s, Reconciling, Reconciled);
      return None;
    }

    method CompleteSettlement(s: Id, now: Time) returns (error: Option<FinanceError>)
      requires Valid()
      modifies this
      ensures Valid()
      ensures var r := Complete(old(State()), s, now);
              if r.Ok? then error == None && State() == r.value else error == Some(r.error) && State() == old(State())
    {
      if s !in settlements { return Some(SettlementNotFound); }
      if settlements[s].status != Reconciled { return Some(StateConflict); }
      var k := LatestReconciliation(s);
      if k == None || reconciliations[k.value].status == Mismatch { return Some(ReconciliationNotApproved); }
      settlements := settlements[s := settlements[s].(status := Completed, completedAt := Some(now))];
      return None;
    }

    // ------------------------------------------------------------------------ payouts

    /** The checks of `initiatePayout` on the venue's entries, which of them are eligible, and their totals. */
    method PayableBatch(s: Id, v: Id) returns (error: Option<FinanceError>, eligible: seq<Row>, totals: Totals)
      requires Valid() && s in settlements
      ensures error == PayableError(State(), s, v)
      ensures error == None ==> eligible == Select(Select(rows, OfSettlementVenue(s, v)), PayableOf(s, v))
      ensures error == None ==> totals == PayableTotals(State(), s, v)
    {
      var entries := Find(OfSettlementVenue(s, v));
      eligible, totals := [], ZERO;
      for k := 0 to |entries|
        invariant eligible == Select(entries[..k], PayableOf(s, v))
        invariant forall m :: 0 <= m < k ==>
                    entries[m].partner == settlements[s].partner && entries[m].environment == settlements[s].environment
      {
        assert entries[..k + 1] == entries[..k] + [entries[k]];
        if entries[k].partner != settlements[s].partner || entries[k].environment != settlements[s].environment {
          return Some(PayoutLedgerScopeMismatch), eligible, totals;
        }
        if Hits(PayableOf(s, v), entries[k]) {
          eligible := eligible + [entries[k]];
        }
      }
      assert entries[..|entries|] == entries;
      if eligible == [] { return Some(NoPayableLedgerEntries), eligible, totals; }
      var originals := HydrateReversalOriginals(eligible);
      if originals == None { return Some(LedgerReversalReferenceInvalid), eligible, totals; }
      totals := AggregateEntries(eligible, originals.value);
      error := TotalsError(totals);
      if error == None && totals.net <= 0 {
        error := Some(PayoutAmountNotPositive);
      }
    }

    /** The part of `initiatePayout` after the key was found to be new. */
    method CreatePayout(s: Id, v: Id, account: Id, key: string,
                        gate: Option<FinanceError>) returns (error: Option<FinanceError>)
      requires Valid()
      modifies this
      ensures Valid()
      ensures var r := NewPayout(old(State()), s, v, account, key, gate);
              if r.Ok? then error == None && State() == r.value else error == Some(r.error) && State() == old(State())
    {
      if key == "" { return Some(RequestInvalid); }
      if exists p :: p in payouts && payouts[p].settlement == s && payouts[p].venue == v {
        return Some(PayoutAlreadyExists);
      }
      if s !in settlements { return Some(SettlementNotFound); }
      if settlements[s].status != Completed { return Some(SettlementNotCompleted); }
      if gate.Some? { return gate; }
      var eligible, totals;
      error, eligible, totals := PayableBatch(s, v);
      if error.Some? { return; }
      error := InsertPayout(Payout(s, v, account, settlements[s].environment, totals.net, Pending, key, None, None), eligible);
    }

    /** Insert a payout and allocate its entries, or leave everything as it was. */
    method InsertPayout(payout: Payout, entries: seq<Row>) returns (error: Option<FinanceError>)
      requires Valid()
      modifies this
      ensures Valid()
      ensures var a := ToPayout(Ids(entries), payout.settlement, payout.venue, old(nextId));
              if TakenCount(a, old(rows)) != |entries|
              then error == Some(PayoutLedgerAllocationConflict) && State() == old(State())
              else error == None && State() == old(State()).(batches := PutBatches(a, old(batches)), nextId := old(nextId) + 1,
                                                             payouts := old(payouts)[old(nextId) := payout])
    {
      var before, beforePayouts, id := rows, payouts, nextId;
      ghost var beforeBatches := batches;
      payouts := payouts[id := payout];
      nextId := id + 1;
      var modified := Allocate(ToPayout(Ids(entries), payout.settlement, payout.venue, id));
      if modified != |entries| {
        rows, payouts, nextId, batches := before, beforePayouts, id, beforeBatches;
        return Some(PayoutLedgerAllocationConflict);
      }
      return None;
    }

    method Initiate(s: Id, v: Id, account: Id, key: string,
                    gate: Option<FinanceError>) returns (error: Option<FinanceError>)
      requires Valid()
      modifies this
      ensures Valid()
      ensures var r := InitiatePayout(old(State()), s, v, account, key, gate);
              if r.Ok? then error == None && State() == r.value else error == Some(r.error) && State() == old(State())
    {
      if exists p :: p in payouts && payouts[p].key == key {
        if exists p :: p in payouts && payouts[p].key == key && payouts[p].settlement == s
                       && payouts[p].venue == v && payouts[p].account == account
        {
          return None;
        }
        return Some(PayoutIdempotencyKeyReused);
      }
      error := CreatePayout(s, v, account, key, gate);
    }

    method RecordResult(p: Id, paid: bool, bankReference: string,
                        failureReason: string) returns (error: Option<FinanceError>)
      requires Valid()
      modifies this
      ensures Valid()
      ensures var r := RecordPayoutResult(old(State()), p, paid, bankReference, failureReason);
              if r.Ok? then error == None && State() == r.value else error == Some(r.error) && State() == old(State())
    {
      if (paid && bankReference == "") || (!paid && failureReason == "") { return Some(RequestInvalid); }
      if (paid && failureReason != "") || (!paid && bankReference != "") { return Some(RequestInvalid); }
      if p !in payouts || payouts[p].status != Pending { return Some(PayoutNotPending); }
      if paid && exists q :: q in payouts && payouts[q].environment == payouts[p].environment
                             && payouts[q].bankReference == Some(bankReference)
      {
        return Some(PayoutBankReferenceDuplicate);
      }
      payouts := payouts[p := payouts[p].(
        status := if paid then Paid else PayoutFailed,
        bankReference := if paid then Some(bankReference) else None,
        failureReason := if paid then None else Some(failureReason))];
      return None;
    }
  }
}
