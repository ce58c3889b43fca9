/**
 The life of a booking across the slots, the ledger and the idempotency records: every
 transaction that confirms or cancels one, as a function from one state to the next.
 */
module Lifecycle {
  import opened Base
  import opened Money
  import LT = LedgerTypes
  import R = Refunds
  import B = Books
  import BT = BooksTheorems
  import S = Slots
  import I = Inventory
  import IF = InventoryFrames

  datatype BookingStatus = Confirmed | Cancelled

  /** `hold` and `journal` (the first ledger row) record where the booking came from; no step reads them. */
  datatype Booking = Booking(
    id: Id,
    slot: Id,
    hold: Option<Id>,
    partner: Option<Id>,
    venue: Id,
    contract: Option<Id>,
    environment: Environment,
    startsAt: Time,
    key: string,
    amounts: R.Amounts,
    policy: R.PolicySnapshot,
    status: BookingStatus,
    confirmedAt: Time,
    correlation: string,
    journal: Id
  )

  datatype Cancellation = Cancellation(
    booking: Id,
    refundPercent: int,
    refundAmount: int,
    released: bool,
    key: string,
    cancelledAt: Time,
    correlation: string,
    journal: Id
  )

  datatype Operation = ConfirmBooking | CancelBooking(booking: Id)

  /** What a request hash is taken over. */
  datatype Request =
    | ConfirmRequest(hold: Id, reference: string, customer: string, payment: string)
    | CancelRequest(booking: Id, reasonCode: string, reasonText: string)

  /** A stored response: the booking as confirmed, or the cancellation. */
  datatype Response = Confirmation(booking: Booking) | Cancelling(cancellation: Cancellation)

  datatype Record = Record(
    partner: Id,
    environment: Environment,
    key: string,
    operation: Operation,
    request: Request,
    response: Response,
    expiresAt: Time
  )

  datatype System = System(
    inventory: I.State,
    books: B.Books,
    bookings: map<Id, Booking>,
    cancellations: seq<Cancellation>,
    records: seq<Record>
  )

  datatype LifecycleError =
    | IdempotencyKeyReused
    | HoldNotActive
    | BookingPriceMissing
    | NotBookable
    | DuplicateConfirmation
    | BookingNotFound
    | BookingNotCancellable
    | CancellationNotAllowed
    | OwnerCancellationDirectOnly
    | DuplicateCancellation
    | SlotConflict(slotError: I.InventoryError)
    | Finance(financeError: B.FinanceError)

  datatype Outcome = Outcome(state: System, response: Response)

  /** Hours in milliseconds an idempotency record lives by default. */
  const IDEMPOTENCY_TTL_MS := 86_400_000

  // -------------------------------------------------------------- idempotency records

  predicate RecordFor(r: Record, partner: Id, environment: Environment, key: string, operation: Operation) {
    r.partner == partner && r.environment == environment && r.key == key && r.operation == operation
  }

  /** `getIdempotency`; it does not look at the expiry. */
  function FindRecord(records: seq<Record>, partner: Id, environment: Environment, key: string,
                      operation: Operation): (r: Option<Record>)
    ensures r.Some? ==> r.value in records && RecordFor(r.value, partner, environment, key, operation)
    ensures r == None ==> forall k :: 0 <= k < |records| ==> !RecordFor(records[k], partner, environment, key, operation)
  {
    if records == [] then None
    else if RecordFor(records[0], partner, environment, key, operation) then Some(records[0])
    else FindRecord(records[1..], partner, environment, key, operation)
  }

  /** `sameRequest`. */
  function Replay(s: System, record: Record, request: Request): Result<Outcome, LifecycleError> {
    if record.request != request then Err(IdempotencyKeyReused) else Ok(Outcome(s, record.response))
  }

  /** The TTL index removes what has expired. */
  function Live(records: seq<Record>, now: Time): seq<Record> {
    if records == [] then []
    else
      var rest := Live(records[..|records| - 1], now);
      if records[|records| - 1].expiresAt <= now then rest else rest + [records[|records| - 1]]
  }

  // ----------------------------------------------------------------------- confirming

  /** What the venue, the contract in force and the accepted venue agreement give a confirmation. */
  datatype Context = Context(venue: Id, contract: Id, rates: R.Rates, policy: R.PolicySnapshot)

  /**
   `slot` is the row found under the hold; `context` is None when a check on the foreign
   records failed; `at` is when the transaction read the clock, some time before it commits.
   */
  datatype ConfirmCall = ConfirmCall(
    partner: Id,
    environment: Environment,
    key: string,
    slot: Id,
    hold: Id,
    reference: string,
    customer: string,
    payment: string,
    context: Option<Context>,
    correlation: string,
    at: Time
  )

  function ConfirmHash(c: ConfirmCall): Request {
    ConfirmRequest(c.hold, c.reference, c.customer, c.payment)
  }

  function SnapshotOf(b: Booking): LT.Snapshot {
    LT.Snapshot(b.id, b.partner, b.venue, b.contract, b.environment,
                b.amounts.gross, b.amounts.commission, b.amounts.tax, b.amounts.venueNet)
  }

  predicate KeyTaken(bookings: map<Id, Booking>, partner: Id, environment: Environment, key: string) {
    exists b :: b in bookings && bookings[b].partner == Some(partner) && bookings[b].environment == environment && bookings[b].key == key
  }

  function NewBooking(s: System, c: ConfirmCall, price: int, context: Context, row: S.Slot): Booking {
    Booking(s.inventory.nextId, c.slot, Some(c.hold), Some(c.partner), context.venue, Some(context.contract), c.environment,
            row.startsAt, c.key, R.CalculateAmounts(price, context.rates), context.policy, Confirmed,
            c.at, c.correlation, s.books.nextId)
  }

  /** The body of `confirm` for a key that has no record. */
  function ConfirmNew(s: System, c: ConfirmCall): Result<Outcome, LifecycleError> {
    if !I.Confirmable(s.inventory, c.slot, c.hold, c.partner, c.environment, c.at) then Err(HoldNotActive)
    else
      var row := s.inventory.slots[c.slot];
      if row.price == None then Err(BookingPriceMissing)
      else if c.context == None then Err(NotBookable)
      else
        var booking := NewBooking(s, c, row.price.value, c.context.value, row);
        var slots := I.Confirm(s.inventory, c.slot, c.hold, c.partner, c.environment, c.at).value;
        var posted := B.PostBooking(s.books, SnapshotOf(booking), c.at, c.correlation);
        if KeyTaken(s.bookings, c.partner, c.environment, c.key) then Err(DuplicateConfirmation)
        else if posted.Err? then Err(Finance(posted.error))
        else
          var record := Record(c.partner, c.environment, c.key, ConfirmBooking, ConfirmHash(c), Confirmation(booking),
                               c.at + IDEMPOTENCY_TTL_MS);
          Ok(Outcome(System(slots, posted.value, s.bookings[booking.id := booking], s.cancellations, s.records + [record]),
                     record.response))
  }

  /** `confirm`. */
  function Confirm(s: System, c: ConfirmCall): Result<Outcome, LifecycleError> {
    var record := FindRecord(s.records, c.partner, c.environment, c.key, ConfirmBooking);
    if record.Some? then Replay(s, record.value, ConfirmHash(c)) else ConfirmNew(s, c)
  }

  // ----------------------------------------------------------------------- cancelling

  datatype CancelCall = CancelCall(
    partner: Id,
    environment: Environment,
    key: string,
    booking: Id,
    reasonCode: string,
    reasonText: string,
    correlation: string,
    at: Time
  )

  function CancelHash(c: CancelCall): Request {
    CancelRequest(c.booking, c.reasonCode, c.reasonText)
  }

  predicate HasCancellation(cancellations: seq<Cancellation>, booking: Id) {
    exists k :: 0 <= k < |cancellations| && cancellations[k].booking == booking
  }

  function NewCancellation(s: System, c: CancelCall, b: Booking, policy: R.Policy): Cancellation {
    Cancellation(b.id, policy.refundPercent, R.RefundAmount(b.amounts.gross, policy.refundPercent), policy.releaseInventory,
                 c.key, c.at, c.correlation, s.books.nextId)
  }

  /** Everything a cancellation writes: slot, ledger, booking, cancellation and the answer kept for the call. */
  function CancelledSystem(s: System, c: CancelCall, b: Booking, x: Cancellation, slots: I.State,
                           books: B.Books): System {
    System(slots, books, s.bookings[b.id := b.(status := Cancelled)], s.cancellations + [x],
           s.records + [Record(c.partner, c.environment, c.key, CancelBooking(b.id), CancelHash(c), Cancelling(x),
                               x.cancelledAt + IDEMPOTENCY_TTL_MS)])
  }

  /** The writes of `cancel`, for a booking that may be cancelled under `policy`. */
  function CancelConfirmed(s: System, c: CancelCall, b: Booking, policy: R.Policy): Result<Outcome, LifecycleError> {
    var slots := I.Dispose(s.inventory, b.slot, b.id, policy.releaseInventory);
    var posted := B.PostCancellation(s.books, SnapshotOf(b), policy.refundPercent, c.at, c.correlation);
    var x := NewCancellation(s, c, b, policy);
    if slots.Err? then Err(SlotConflict(slots.error))
    else if HasCancellation(s.cancellations, b.id) then Err(DuplicateCancellation)
    else if posted.Err? then Err(Finance(posted.error))
    else Ok(Outcome(CancelledSystem(s, c, b, x, slots.value, posted.value), Cancelling(x)))
  }

  /** The body of `cancel` for a key that has no record. */
  function CancelNew(s: System, c: CancelCall): Result<Outcome, LifecycleError> {
    var id := c.booking;
    if id !in s.bookings || s.bookings[id].partner != Some(c.partner) || s.bookings[id].environment != c.environment
      then Err(BookingNotFound)
    else if s.bookings[id].status != Confirmed then Err(BookingNotCancellable)
    else
      var policy := R.CancellationPolicy(s.bookings[id].policy, s.bookings[id].startsAt, c.at);
      if !policy.allowed then Err(CancellationNotAllowed) else CancelConfirmed(s, c, s.bookings[id], policy)
  }

  /** `cancel`. */
  function Cancel(s: System, c: CancelCall): Result<Outcome, LifecycleError> {
    var record := FindRecord(s.records, c.partner, c.environment, c.key, CancelBooking(c.booking));
    if record.Some? then Replay(s, record.value, CancelHash(c)) else CancelNew(s, c)
  }

  // ---------------------------------------------------------------- owner's bookings

  const NO_AMOUNTS := R.Amounts(0, 0, 0, 0)

  const NO_POLICY := R.PolicySnapshot(None, None, None, [], None)

  /** The commit of `createDirectBooking`: a booking of no partner, for no money. */
  function BookDirect(s: System, p: I.Placement, scan: seq<S.Slot>, venue: Id,
                      correlation: string): Result<System, LifecycleError> {
    match I.Commit(s.inventory, p, scan)
    case Err(e) => Err(SlotConflict(e))
    case Ok(after) =>
      var id, slot := s.inventory.nextId + 1, s.inventory.nextId;
      var booking := Booking(id, slot, None, None, venue, None, p.interval.environment, p.interval.startsAt, "", NO_AMOUNTS, NO_POLICY,
                             Confirmed, p.at, correlation, s.books.nextId);
      Ok(s.(inventory := after, bookings := s.bookings[id := booking]))
  }

  /** The owner's `cancelBooking`; what it refunds of a recorded payment is an input. */
  function CancelDirect(s: System, venue: Id, id: Id, refundPercent: int, refundAmount: int,
                        correlation: string, at: Time): Result<System, LifecycleError> {
    if id !in s.bookings || s.bookings[id].venue != venue then Err(BookingNotFound)
    else if s.bookings[id].status != Confirmed then Err(BookingNotCancellable)
    else if s.bookings[id].partner.Some? then Err(OwnerCancellationDirectOnly)
    else if HasCancellation(s.cancellations, id) then Err(DuplicateCancellation)
    else
      var b := s.bookings[id];
      var cancellation := Cancellation(id, refundPercent, refundAmount, true, "", at, correlation, s.books.nextId);
      Ok(s.(inventory := I.ReleaseDirect(s.inventory, b.slot, id), bookings := s.bookings[id := b.(status := Cancelled)],
            cancellations := s.cancellations + [cancellation]))
  }

  // -------------------------------------------------------------------------------- steps

  datatype Step =
    | Inventory(step: I.Step)
    | Finances(command: BT.Command)
    | SConfirm(confirm: ConfirmCall)
    | SCancel(cancel: CancelCall)
    | SBookDirect(placement: I.Placement, scan: seq<S.Slot>, venue: Id, correlation: string)
    | SCancelDirect(venue: Id, booking: Id, refundPercent: int, refundAmount: int, correlation: string, at: Time)
    | Sweep

  /** Bookings are made and ended by the steps of this module only; otherwise the components step on their own. */
  predicate Possible(s: System, step: Step) {
    match step
    case Inventory(i) => I.Possible(s.inventory, i) && IF.Neutral(i)
    case Finances(c) => !c.CPostBooking? && !c.CPostCancellation?
    case SConfirm(c) => c.at <= s.inventory.clock
    case SCancel(c) => c.at <= s.inventory.clock
    case SBookDirect(p, scan, _, _) => p.request.DirectBooking? && I.Possible(s.inventory, I.SCommit(p, scan))
    case SCancelDirect(_, _, _, _, _, at) => at <= s.inventory.clock
    case _ => true
  }

  function After(s: System, step: Step): System {
    match step
    case Inventory(i) => s.(inventory := I.After(s.inventory, i))
    case Finances(c) => s.(books := BT.Step(s.books, c))
    case SConfirm(c) => (match Confirm(s, c) case Ok(o) => o.state case Err(_) => s)
    case SCancel(c) => (match Cancel(s, c) case Ok(o) => o.state case Err(_) => s)
    case SBookDirect(p, scan, venue, correlation) =>
      (match BookDirect(s, p, scan, venue, correlation) case Ok(after) => after case Err(_) => s)
    case SCancelDirect(venue, id, percent, amount, correlation, at) =>
      (match CancelDirect(s, venue, id, percent, amount, correlation, at) case Ok(after) => after case Err(_) => s)
    case Sweep => s.(records := Live(s.records, s.inventory.clock))
  }
}
