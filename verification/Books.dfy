/**
 The state of the financial close (ledger rows, settlements, reconciliations and
 payouts) and every transaction on it as a function from one state to the next.
 */
module Books {
  import opened Base
  import opened Money
  import opened LedgerTypes
  import opened Aggregates
  import L = Ledger

  datatype Cycle = TPlusN | Weekly | Monthly

  /** What a settlement reads of a partner's contract. */
  datatype Terms = Terms(partner: Id, cycle: Cycle, lagDays: nat)

  datatype SettlementStatus = Draft | PendingFunds | Reconciling | Reconciled | Completed

  datatype Settlement = Settlement(
    partner: Id,
    environment: Environment,
    periodStart: Time,
    periodEnd: Time,
    cycle: Cycle,
    dueAt: Time,
    status: SettlementStatus,
    totals: Totals,
    completedAt: Option<Time>
  )

  datatype ReconciliationStatus = Matched | Mismatch | Resolved

  datatype Reconciliation = Reconciliation(
    settlement: Id,
    reported: int,
    bankReference: string,
    status: ReconciliationStatus,
    evidence: string,
    notes: string
  )

  datatype PayoutStatus = Pending | Paid | PayoutFailed

  datatype Payout = Payout(
    settlement: Id,
    venue: Id,
    account: Id,
    environment: Environment,
    amount: int,
    status: PayoutStatus,
    key: string,
    bankReference: Option<string>,
    failureReason: Option<string>
  )

  datatype FinanceError =
    | FromLedger(error: LedgerError)
    | InvalidSettlementPeriod
    | SettlementAlreadyExists
    | NoUnsettledLedgerEntries
    | LedgerReversalReferenceInvalid
    | SettlementContractMismatch
    | SettlementCycleConflict
    | SettlementAmountOverflow
    | LedgerAggregateImbalance
    | LedgerAllocationConflict
    | SettlementNotDraft
    | RequestInvalid
    | SettlementNotFound
    | SettlementNotAwaitingFunds
    | ReconciliationNotesRequired
    | ReconciliationBankReferenceDuplicate
    | StateConflict
    | ReconciliationNotMismatched
    | ReconciliationNotApproved
    | PayoutIdempotencyKeyReused
    | PayoutAlreadyExists
    | SettlementNotCompleted
    | PayoutNotEligible
    | PayoutLedgerScopeMismatch
    | NoPayableLedgerEntries
    | PayoutAmountNotPositive
    | PayoutLedgerAllocationConflict
    | PayoutNotPending
    | PayoutBankReferenceDuplicate
    | InvalidAdjustmentEffectiveAt
    | BookingNotFound
    | BookingNotInSettlement

  /**
   `batches` are the rows of `ledger_entries`, kept apart by the posting that inserted
   them only so that properties can speak of a posting: every query and every update
   below works row by row on `Rows(b)`.
   */
  datatype Books = Books(
    batches: seq<seq<Row>>,
    nextId: Id,
    settlements: map<Id, Settlement>,
    reconciliations: seq<Reconciliation>,
    payouts: map<Id, Payout>
  )

  const EMPTY := Books([], 0, map[], [], map[])

  function Rows(b: Books): seq<Row> {
    Flatten(b.batches)
  }

  // -------------------------------------------------------------------- postings

  function Append(b: Books, rows: seq<Row>): Books {
    if rows == [] then b else b.(batches := b.batches + [rows], nextId := b.nextId + |rows|)
  }

  function PostBooking(b: Books, s: Snapshot, at: Time, correlation: string): Result<Books, FinanceError> {
    match L.BookingPosting(s, at, correlation, b.nextId)
    case Err(e) => Err(FromLedger(e))
    case Ok(rows) => Ok(Append(b, rows))
  }

  function PostCancellation(b: Books, s: Snapshot, percent: int, at: Time,
                            correlation: string): Result<Books, FinanceError> {
    match L.CancellationPosting(Rows(b), s, percent, at, correlation, b.nextId)
    case Err(e) => Err(FromLedger(e))
    case Ok(rows) => Ok(Append(b, rows))
  }

  // ------------------------------------------------------- counted conditional updates

  /** The two `updateMany` calls that put a settlement or a payout on rows, once. */
  datatype Allocation =
    | ToSettlement(ids: set<Id>, settlement: Id)
    | ToPayout(ids: set<Id>, settlement: Id, venue: Id, payout: Id)

  predicate Takes(a: Allocation, r: Row) {
    match a
    case ToSettlement(ids, s) => r.id in ids && r.settlement == None
    case ToPayout(ids, s, v, p) => r.id in ids && r.settlement == Some(s) && r.venue == v && r.payout == None
  }

  function Put(a: Allocation, r: Row): Row {
    if !Takes(a, r) then r
    else match a
      case ToSettlement(ids, s) => r.(settlement := Some(s))
      case ToPayout(ids, s, v, p) => r.(payout := Some(p))
  }

  function PutAll(a: Allocation, rows: seq<Row>): (r: seq<Row>)
    ensures |r| == |rows|
  {
    seq(|rows|, k requires 0 <= k < |rows| => Put(a, rows[k]))
  }

  function PutBatches(a: Allocation, batches: seq<seq<Row>>): (r: seq<seq<Row>>)
    ensures |r| == |batches|
  {
    seq(|batches|, k requires 0 <= k < |batches| => PutAll(a, batches[k]))
  }

  /** `modifiedCount`. */
  function TakenCount(a: Allocation, rows: seq<Row>): nat {
    if rows == [] then 0
    else TakenCount(a, rows[..|rows| - 1]) + if Takes(a, rows[|rows| - 1]) then 1 else 0
  }

  function Ids(rows: seq<Row>): set<Id> {
    set r | r in rows :: r.id
  }

  // -------------------------------------------------------------------- settlements

  /** The rows reversals refer to that are not among the entries themselves. */
  function MissingRefs(entries: seq<Row>): set<Id> {
    set r | r in entries && r.reverses.Some? && r.reverses.value !in Ids(entries) :: r.reverses.value
  }

  function ByIds(rows: seq<Row>, ids: set<Id>): seq<Row> {
    if rows == [] then []
    else
      var rest := ByIds(rows[..|rows| - 1], ids);
      if rows[|rows| - 1].id in ids then rest + [rows[|rows| - 1]] else rest
  }

  predicate SameBookingScope(original: Row, reversal: Row) {
    original.booking == reversal.booking && original.partner == reversal.partner
    && original.venue == reversal.venue && original.environment == reversal.environment
  }

  predicate ReferenceValid(reversal: Row, entries: seq<Row>, originals: seq<Row>) {
    reversal.reverses == None || reversal.reverses.value in Ids(entries)
    || exists k :: 0 <= k < |originals| && originals[k].id == reversal.reverses.value
                   && SameBookingScope(originals[k], reversal)
  }

  predicate ReferencesValid(entries: seq<Row>, originals: seq<Row>) {
    forall k :: 0 <= k < |entries| ==> ReferenceValid(entries[k], entries, originals)
  }

  predicate ContractsKnown(entries: seq<Row>, contracts: map<Id, Terms>, partner: Id) {
    forall k :: 0 <= k < |entries| ==>
      entries[k].contract in contracts && contracts[entries[k].contract].partner == partner
  }

  predicate OneCycle(entries: seq<Row>, contracts: map<Id, Terms>)
    requires forall k :: 0 <= k < |entries| ==> entries[k].contract in contracts
  {
    forall k :: 0 <= k < |entries| ==> contracts[entries[k].contract].cycle == contracts[entries[0].contract].cycle
  }

  function MaxLag(entries: seq<Row>, contracts: map<Id, Terms>): nat
    requires forall k :: 0 <= k < |entries| ==> entries[k].contract in contracts
  {
    if entries == [] then 0
    else
      var rest := MaxLag(entries[..|entries| - 1], contracts);
      var lag := contracts[entries[|entries| - 1].contract].lagDays;
      if lag > rest then lag else rest
  }

  /** The largest settlement lag among the contracts of the entries, and an entry that has it. */
  lemma {:induction false} MaxLagIsLargest(entries: seq<Row>, contracts: map<Id, Terms>) returns (k: nat)
    requires entries != [] && forall k :: 0 <= k < |entries| ==> entries[k].contract in contracts
    ensures forall m :: 0 <= m < |entries| ==> contracts[entries[m].contract].lagDays <= MaxLag(entries, contracts)
    ensures k < |entries| && contracts[entries[k].contract].lagDays == MaxLag(entries, contracts)
  {
    k := |entries| - 1;
    var init := entries[..k];
    if init != [] {
      var m := MaxLagIsLargest(init, contracts);
      assert forall m :: 0 <= m < |init| ==> init[m] == entries[m];
      if contracts[entries[k].contract].lagDays < MaxLag(entries, contracts) { k := m; }
    }
  }

  function TotalsError(t: Totals): Option<FinanceError> {
    if !AllSafe(t) then Some(SettlementAmountOverflow)
    else if Imbalance(t) != 0 then Some(LedgerAggregateImbalance)
    else None
  }

  predicate PeriodTaken(settlements: map<Id, Settlement>, partner: Id, environment: Environment, from: Time, to: Time) {
    exists s :: s in settlements
                && settlements[s].partner == partner && settlements[s].environment == environment
                && settlements[s].periodStart == from && settlements[s].periodEnd == to
  }

  const DAY_MS := 86_400_000

  /** The checks of `generate` on the entries it has read. */
  function BatchError(b: Books, entries: seq<Row>, contracts: map<Id, Terms>, partner: Id): Option<FinanceError> {
    var originals := ByIds(Rows(b), MissingRefs(entries));
    if entries == [] then Some(NoUnsettledLedgerEntries)
    else if !ReferencesValid(entries, originals) then Some(LedgerReversalReferenceInvalid)
    else if !ContractsKnown(entries, contracts, partner) then Some(SettlementContractMismatch)
    else if !OneCycle(entries, contracts) then Some(SettlementCycleConflict)
    else TotalsError(Aggregate(entries, originals))
  }

  function Drafted(b: Books, entries: seq<Row>, contracts: map<Id, Terms>, partner: Id, environment: Environment,
                   from: Time, to: Time): Settlement
    requires entries != [] && ContractsKnown(entries, contracts, partner)
  {
    Settlement(partner, environment, from, to, contracts[entries[0].contract].cycle,
               to + MaxLag(entries, contracts) * DAY_MS, Draft,
               Aggregate(entries, ByIds(Rows(b), MissingRefs(entries))), None)
  }

  /** `generate`: settle everything of a partner that falls into the period and is not settled yet. */
  function Generate(b: Books, partner: Id, environment: Environment, from: Time, to: Time, contracts: map<Id, Terms>)
    : Result<Books, FinanceError>
  {
    if from >= to then Err(InvalidSettlementPeriod)
    else if PeriodTaken(b.settlements, partner, environment, from, to) then Err(SettlementAlreadyExists)
    else
      var entries := Select(Rows(b), UnsettledIn(partner, environment, from, to));
      if BatchError(b, entries, contracts, partner).Some? then Err(BatchError(b, entries, contracts, partner).value)
      else
        var id := b.nextId;
        var a := ToSettlement(Ids(entries), id);
        if TakenCount(a, Rows(b)) != |entries| then Err(LedgerAllocationConflict)
        else Ok(b.(batches := PutBatches(a, b.batches),
                   nextId := id + 1,
                   settlements := b.settlements[id := Drafted(b, entries, contracts, partner, environment, from, to)]))
  }

  function WithStatus(b: Books, s: Id, status: SettlementStatus): Books
    requires s in b.settlements
  {
    b.(settlements := b.settlements[s := b.settlements[s].(status := status)])
  }

  function Submit(b: Books, s: Id): Result<Books, FinanceError> {
    if s !in b.settlements || b.settlements[s].status != Draft then Err(SettlementNotDraft)
    else Ok(WithStatus(b, s, PendingFunds))
  }

  /** `reconcile`: the bank reports an amount; it matches the stored net or is explained. */
  function Reconcile(b: Books, s: Id, reported: int, bankReference: string, evidence: string, notes: string)
    : Result<Books, FinanceError>
  {
    if !(0 <= reported <= MAX_SAFE) || bankReference == "" then Err(RequestInvalid)
    else if s !in b.settlements then Err(SettlementNotFound)
    else if b.settlements[s].status != PendingFunds then Err(SettlementNotAwaitingFunds)
    else
      var matched := reported == b.settlements[s].totals.net;
      if !matched && notes == "" then Err(ReconciliationNotesRequired)
      else if exists k :: 0 <= k < |b.reconciliations|
                          && b.reconciliations[k].settlement == s && b.reconciliations[k].bankReference == bankReference
        then Err(ReconciliationBankReferenceDuplicate)
      else
        var record := Reconciliation(s, reported, bankReference, if matched then Matched else Mismatch, evidence, notes);
        Ok(WithStatus(b, s, if matched then Reconciled else Reconciling)
           .(reconciliations := b.reconciliations + [record]))
  }

  /** The latest reconciliation of a settlement. */
  function Latest(records: seq<Reconciliation>, s: Id): (r: Option<nat>)
    ensures r.Some? ==> r.value < |records| && records[r.value].settlement == s
    ensures r == None ==> forall k :: 0 <= k < |records| ==> records[k].settlement != s
  {
    if records == [] then None
    else if records[|records| - 1].settlement == s then Some(|records| - 1)
    else Latest(records[..|records| - 1], s)
  }

  function Resolve(b: Books, s: Id, evidence: string, notes: string): Result<Books, FinanceError> {
    if notes == "" || evidence == "" then Err(RequestInvalid)
    else if s !in b.settlements then Err(SettlementNotFound)
    else if b.settlements[s].status != Reconciling then Err(StateConflict)
    else
      var k := Latest(b.reconciliations, s);
      if k == None || b.reconciliations[k.value].status != Mismatch then Err(ReconciliationNotMismatched)
      else
        var record := b.reconciliations[k.value].(status := Resolved, evidence := evidence, notes := notes);
        Ok(WithStatus(b, s, Reconciled).(reconciliations := b.reconciliations[k.value := record]))
  }

  function Complete(b: Books, s: Id, now: Time): Result<Books, FinanceError> {
    if s !in b.settlements then Err(SettlementNotFound)
    else if b.settlements[s].status != Reconciled then Err(StateConflict)
    else
      var k := Latest(b.reconciliations, s);
      if k == None || b.reconciliations[k.value].status == Mismatch then Err(ReconciliationNotApproved)
      else Ok(b.(settlements := b.settlements[s := b.settlements[s].(status := Completed, completedAt := Some(now))]))
  }

  // ------------------------------------------------------------------------ payouts

  predicate PayoutFor(b: Books, s: Id, v: Id) {
    exists p :: p in b.payouts && b.payouts[p].settlement == s && b.payouts[p].venue == v
  }

  function PayableTotals(b: Books, s: Id, v: Id): Totals {
    var eligible := Select(Select(Rows(b), OfSettlementVenue(s, v)), PayableOf(s, v));
    Aggregate(eligible, ByIds(Rows(b), MissingRefs(eligible)))
  }

  function PayableError(b: Books, s: Id, v: Id): Option<FinanceError>
    requires s in b.settlements
  {
    var entries := Select(Rows(b), OfSettlementVenue(s, v));
    var eligible := Select(entries, PayableOf(s, v));
    if exists k :: 0 <= k < |entries| && (entries[k].partner != b.settlements[s].partner
                                          || entries[k].environment != b.settlements[s].environment)
      then Some(PayoutLedgerScopeMismatch)
    else if eligible == [] then Some(NoPayableLedgerEntries)
    else if !ReferencesValid(eligible, ByIds(Rows(b), MissingRefs(eligible))) then Some(LedgerReversalReferenceInvalid)
    else if TotalsError(PayableTotals(b, s, v)).Some? then TotalsError(PayableTotals(b, s, v))
    else if PayableTotals(b, s, v).net <= 0 then Some(PayoutAmountNotPositive)
    else None
  }

  /**
   `initiatePayout`, for a key no payout carries yet. `gate` is what the checks of the
   venue, its owner, the KYC record and the payout account found wrong.
   */
  function NewPayout(b: Books, s: Id, v: Id, account: Id, key: string,
                     gate: Option<FinanceError>): Result<Books, FinanceError> {
    if key == "" then Err(RequestInvalid)
    else if PayoutFor(b, s, v) then Err(PayoutAlreadyExists)
    else if s !in b.settlements then Err(SettlementNotFound)
    else if b.settlements[s].status != Completed then Err(SettlementNotCompleted)
    else if gate.Some? then Err(gate.value)
    else if PayableError(b, s, v).Some? then Err(PayableError(b, s, v).value)
    else
      var eligible := Select(Select(Rows(b), OfSettlementVenue(s, v)), PayableOf(s, v));
      var id := b.nextId;
      var a := ToPayout(Ids(eligible), s, v, id);
      var payout := Payout(s, v, account, b.settlements[s].environment, PayableTotals(b, s, v).net, Pending, key, None, None);
      if TakenCount(a, Rows(b)) != |eligible| then Err(PayoutLedgerAllocationConflict)
      else Ok(b.(batches := PutBatches(a, b.batches), nextId := id + 1, payouts := b.payouts[id := payout]))
  }

  /** `initiatePayout`: a key seen before replays its payout or refuses another request. */
  function InitiatePayout(b: Books, s: Id, v: Id, account: Id, key: string,
                          gate: Option<FinanceError>): Result<Books, FinanceError> {
    if exists p :: p in b.payouts && b.payouts[p].key == key then
      if exists p :: p in b.payouts && b.payouts[p].key == key && b.payouts[p].settlement == s
                     && b.payouts[p].venue == v && b.payouts[p].account == account
        then Ok(b)
      else Err(PayoutIdempotencyKeyReused)
    else NewPayout(b, s, v, account, key, gate)
  }

  function RecordPayoutResult(b: Books, p: Id, paid: bool, bankReference: string,
                              failureReason: string): Result<Books, FinanceError> {
    if (paid && bankReference == "") || (!paid && failureReason == "") then Err(RequestInvalid)
    else if (paid && failureReason != "") || (!paid && bankReference != "") then Err(RequestInvalid)
    else if p !in b.payouts || b.payouts[p].status != Pending then Err(PayoutNotPending)
    else if paid && exists q :: q in b.payouts && b.payouts[q].environment == b.payouts[p].environment
                                && b.payouts[q].bankReference == Some(bankReference)
      then Err(PayoutBankReferenceDuplicate)
    else
      var settled := b.payouts[p].(
        status := if paid then Paid else PayoutFailed,
        bankReference := if paid then Some(bankReference) else None,
        failureReason := if paid then None else Some(failureReason));
      Ok(b.(payouts := b.payouts[p := settled]))
  }

  // -------------------------------------------------------------------- adjustments

  /** `recordAdjustment`; `booking` is what the bookings collection holds under the requested id. */
  function RecordAdjustment(b: Books, s: Id, booking: Option<Snapshot>, lines: seq<Line>, reason: string,
                            evidence: string,
                            effectiveAt: Time, correlation: string, now: Time): Result<Books, FinanceError>
  {
    if s !in b.settlements || b.settlements[s].status != Completed then Err(SettlementNotCompleted)
    else
      var st := b.settlements[s];
      if st.completedAt == None || effectiveAt < st.completedAt.value || effectiveAt > now
        then Err(InvalidAdjustmentEffectiveAt)
      else if booking == None || booking.value.partner != Some(st.partner) || booking.value.environment != st.environment
        then Err(BookingNotFound)
      else
        var bk := booking.value;
        var rows := Rows(b);
        if !(exists k :: 0 <= k < |rows| && rows[k].booking == bk.booking && rows[k].settlement == Some(s)
                         && rows[k].partner == st.partner && rows[k].environment == st.environment)
          then Err(BookingNotInSettlement)
        else
          match L.AdjustmentPosting(bk, lines, reason, evidence, effectiveAt, correlation, b.nextId)
          case Err(e) => Err(FromLedger(e))
          case Ok(posted) => Ok(Append(b, posted))
  }
}
