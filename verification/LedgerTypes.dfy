/** The rows of `ledger_entries` and what a posting of them must look like. */
module LedgerTypes {
  import opened Base

  datatype Direction = Debit | Credit

  datatype EntryType = BookingEntry | CommissionEntry | TaxEntry | ReversalEntry | AdjustmentEntry

  /** `metadata.component`; an adjustment request may carry any text. */
  datatype Component = Gross | Commission | Tax | VenueNet | Unknown(text: string)

  datatype Row = Row(
    id: Id,
    booking: Id,
    partner: Id,
    venue: Id,
    contract: Id,
    settlement: Option<Id>,
    payout: Option<Id>,
    reverses: Option<Id>,
    environment: Environment,
    entryType: EntryType,
    direction: Direction,
    amount: int,
    effectiveAt: Time,
    correlation: string,
    component: Option<Component>,
    originalComponent: Option<Component>
  )

  /** A booking as the ledger sees it. */
  datatype Snapshot = Snapshot(
    booking: Id,
    partner: Option<Id>,
    venue: Id,
    contract: Option<Id>,
    environment: Environment,
    gross: int,
    commission: int,
    tax: int,
    venueNet: int
  )

  datatype Line = Line(direction: Direction, amount: int, component: Component)

  datatype LedgerError =
    | InvalidBookingLedgerAmount
    | BookingLedgerImbalance
    | FinancialScopeRequired
    | FieldRequired
    | InvalidRefundPercent
    | LedgerOriginalsNotFound
    | LedgerBookingScopeMismatch
    | LedgerEntryAlreadyReversed
    | InvalidAdjustmentComponent
    | LedgerJournalIncomplete
    | InvalidLedgerAmount
    | LedgerScopeMismatch
    | LedgerJournalUnbalanced
    | InvalidLedgerReversal

  predicate SameScope(a: Row, b: Row) {
    a.booking == b.booking && a.partner == b.partner && a.venue == b.venue && a.contract == b.contract
    && a.environment == b.environment && a.correlation == b.correlation
  }

  predicate Known(c: Component) {
    !c.Unknown?
  }

  function Flip(d: Direction): Direction {
    if d == Debit then Credit else Debit
  }

  /** The side a component is booked on: the gross is owed by the partner, the rest is owed onward. */
  function SideOf(c: Component): Direction {
    if c == Gross then Debit else Credit
  }

  /** How the type, the direction and the metadata of a posted row belong together. */
  predicate Shaped(r: Row) {
    match r.entryType
    case ReversalEntry =>
      r.reverses.Some? && r.component == None && r.originalComponent.Some? && Known(r.originalComponent.value)
      && r.direction == Flip(SideOf(r.originalComponent.value))
    case AdjustmentEntry =>
      r.reverses == None && r.component.Some? && Known(r.component.value)
    case _ =>
      r.reverses == None && r.component.Some? && Known(r.component.value)
      && r.direction == SideOf(r.component.value)
  }

  function Signed(r: Row): int {
    if r.direction == Credit then r.amount else -r.amount
  }

  /** Credits minus debits. */
  function Balance(rows: seq<Row>): int {
    if rows == [] then 0 else Balance(rows[..|rows| - 1]) + Signed(rows[|rows| - 1])
  }

  /** Total of the rows of one direction. */
  function Side(rows: seq<Row>, d: Direction): int {
    if rows == [] then 0
    else
      var last := rows[|rows| - 1];
      Side(rows[..|rows| - 1], d) + if last.direction == d then last.amount else 0
  }

  lemma {:induction false} BalanceIsDifference(rows: seq<Row>)
    ensures Balance(rows) == Side(rows, Credit) - Side(rows, Debit)
  {
    if rows != [] {
      BalanceIsDifference(rows[..|rows| - 1]);
    }
  }

  /** What every posting leaves in the ledger: one scope and date, unallocated or allocated as one, balanced. */
  predicate Journal(batch: seq<Row>) {
    && |batch| >= 2
    && Balance(batch) == 0
    && (forall k :: 0 <= k < |batch| ==>
          Shaped(batch[k]) && batch[k].amount >= 0 && OneJournal(batch[k], batch[0]))
  }

  predicate OneJournal(r: Row, q: Row) {
    SameScope(r, q) && r.effectiveAt == q.effectiveAt && r.settlement == q.settlement && r.payout == q.payout
  }

  /** A journal as it is posted: no settlement and no payout has taken it yet. */
  predicate Posting(batch: seq<Row>, firstId: Id) {
    && Journal(batch)
    && (forall k :: 0 <= k < |batch| ==>
          batch[k].id == firstId + k && batch[k].settlement == None && batch[k].payout == None)
  }
}
