/**
 What a confirmation and a cancellation promise, said in figures: the amounts booked are
 the contract's shares of the slot's price, and the refund recorded is that of the rule
 which applies to the time left.
 */
module BookingEffects {
  import opened Base
  import opened Lifecycle
  import opened LifecycleInvariant
  import B = Books
  import BI = BooksInvariant
  import BT = BooksTheorems
  import CE = CloseEffects
  import I = Inventory
  import L = Ledger
  import LT = LedgerTypes
  import LTm = LifecycleTheorems
  import R = Refunds
  import S = Slots
  import SE = SlotEffects
  import T = Traces

  // ------------------------------------------------------------------- amounts booked

  /** `share` is the rate in basis points of `price`, to the nearest unit and a half going up. */
  predicate ShareOfPrice(share: int, price: int, bps: int) {
    20_000 * share <= 2 * price * bps + 10_000 < 20_000 * (share + 1)
  }

  lemma AmountsAre(price: int, rates: R.Rates)
    ensures var a := R.CalculateAmounts(price, rates);
            a.gross == price && ShareOfPrice(a.commission, price, rates.commissionBps) && ShareOfPrice(a.tax, price, rates.taxBps)
            && a.venueNet == price - a.commission - a.tax
  {
    assert 2 * (price * rates.commissionBps) == 2 * price * rates.commissionBps;
    assert 2 * (price * rates.taxBps) == 2 * price * rates.taxBps;
  }

  /** The booking of a confirmed hold: whose it is, when, under which terms and for how much. */
  predicate BookedAs(b: Booking, c: ConfirmCall, row: S.Slot, price: int, context: Context) {
    && b.slot == c.slot && b.hold == Some(c.hold) && b.partner == Some(c.partner) && b.environment == c.environment && b.key == c.key
    && b.startsAt == row.startsAt && b.venue == context.venue && b.contract == Some(context.contract) && b.policy == context.policy
    && b.status == Confirmed && b.confirmedAt == c.at && b.correlation == c.correlation
    && b.amounts.gross == price
    && ShareOfPrice(b.amounts.commission, price, context.rates.commissionBps)
    && ShareOfPrice(b.amounts.tax, price, context.rates.taxBps)
    && b.amounts.venueNet == price - b.amounts.commission - b.amounts.tax
  }

  predicate PostedRow(r: LT.Row, b: Booking, id: Id, entryType: LT.EntryType, direction: LT.Direction, amount: int,
                      component: LT.Component) {
    && r.id == id && r.booking == b.id && Some(r.partner) == b.partner && r.venue == b.venue && Some(r.contract) == b.contract
    && r.environment == b.environment && r.settlement == None && r.payout == None && r.reverses == None
    && r.entryType == entryType && r.direction == direction && r.amount == amount && r.component == Some(component)
    && r.originalComponent == None && r.effectiveAt == b.confirmedAt && r.correlation == b.correlation
  }

  /** The four rows of a confirmation, after all that the ledger held. */
  predicate Posted(before: seq<LT.Row>, after: seq<LT.Row>, b: Booking, first: Id) {
    var n := |before|;
    && |after| == n + 4 && after[..n] == before
    && PostedRow(after[n], b, first, LT.BookingEntry, LT.Debit, b.amounts.gross, LT.Gross)
    && PostedRow(after[n + 1], b, first + 1, LT.CommissionEntry, LT.Credit, b.amounts.commission, LT.Commission)
    && PostedRow(after[n + 2], b, first + 2, LT.TaxEntry, LT.Credit, b.amounts.tax, LT.Tax)
    && PostedRow(after[n + 3], b, first + 3, LT.BookingEntry, LT.Credit, b.amounts.venueNet, LT.VenueNet)
  }

  lemma RowsPosted(books: B.Books, b: Booking)
    requires B.PostBooking(books, SnapshotOf(b), b.confirmedAt, b.correlation).Ok? && b.partner.Some? && b.contract.Some?
    ensures Posted(B.Rows(books), B.Rows(B.PostBooking(books, SnapshotOf(b), b.confirmedAt, b.correlation).value), b, books.nextId)
  {
    L.BookingAccepted(SnapshotOf(b), b.confirmedAt, b.correlation, books.nextId);
    BI.AppendRows(books, L.BookingRows(SnapshotOf(b), b.confirmedAt, b.correlation, books.nextId));
  }

  /** An answer that is kept for a day from the clock reading of its call. */
  predicate Kept(r: Record, partner: Id, environment: Environment, key: string, operation: Operation, request: Request,
                 response: Response, at: Time) {
    && r.partner == partner && r.environment == environment && r.key == key && r.operation == operation && r.request == request
    && r.response == response && r.expiresAt == at + 86_400_000
  }

  /** A key without an answer yet. */
  predicate Fresh(s: System, partner: Id, environment: Environment, key: string, operation: Operation) {
    forall k :: 0 <= k < |s.records| ==>
      s.records[k].partner != partner || s.records[k].environment != environment || s.records[k].key != key || s.records[k].operation != operation
  }

  predicate Amount(n: int) {
    0 <= n <= 9_007_199_254_740_991
  }

  predicate Payable(a: R.Amounts) {
    Amount(a.gross) && Amount(a.commission) && Amount(a.tax) && Amount(a.venueNet) && a.gross == a.commission + a.tax + a.venueNet
  }

  /** The slot carries the hold for the partner, and the hold has not ended at the clock reading. */
  predicate HeldFor(slots: S.Table, c: ConfirmCall) {
    && c.slot in slots
    && var row := slots[c.slot];
       row.status == S.Held && row.holdId == Some(c.hold) && row.holdPartner == Some(c.partner) && row.environment == c.environment
       && row.holdExpiresAt.Some? && c.at < row.holdExpiresAt.value && row.booking == None
  }

  predicate KeyUsed(s: System, c: ConfirmCall) {
    exists b :: b in s.bookings && s.bookings[b].partner == Some(c.partner) && s.bookings[b].environment == c.environment && s.bookings[b].key == c.key
  }

  /**
   A new key confirms exactly a hold of the partner that has not ended at the clock reading,
   has a price and a bookable context, where no booking of the partner has the key and the
   amounts can be posted; the first of these that fails is the answer.
   */
  lemma ConfirmsWhen(s: System, c: ConfirmCall)
    requires Fresh(s, c.partner, c.environment, c.key, ConfirmBooking) && c.correlation != ""
    ensures var error := match Confirm(s, c) case Ok(_) => None case Err(e) => Some(e);
            if !HeldFor(s.inventory.slots, c) then error == Some(HoldNotActive)
            else if s.inventory.slots[c.slot].price == None then error == Some(BookingPriceMissing)
            else if c.context == None then error == Some(NotBookable)
            else if KeyUsed(s, c) then error == Some(DuplicateConfirmation)
            else if !Payable(R.CalculateAmounts(s.inventory.slots[c.slot].price.value, c.context.value.rates))
              then error == Some(Finance(B.FromLedger(LT.InvalidBookingLedgerAmount)))
            else error == None
  {
    SE.ConfirmsWhen(s.inventory, c.slot, c.hold, c.partner, c.environment, c.at);
    assert KeyUsed(s, c) <==> KeyTaken(s.bookings, c.partner, c.environment, c.key);
    if c.slot in s.inventory.slots && s.inventory.slots[c.slot].price.Some? && c.context.Some? {
      var row := s.inventory.slots[c.slot];
      L.BookingAccepted(SnapshotOf(NewBooking(s, c, row.price.value, c.context.value, row)), c.at, c.correlation, s.books.nextId);
    }
  }

  /**
   A confirmation on a new key books the held slot at the contract's shares of its price:
   in its answer, among the bookings, on the slot, in the ledger and in the answer kept.
   */
  lemma ConfirmBooks(s: System, c: ConfirmCall) returns (b: Booking)
    requires Fresh(s, c.partner, c.environment, c.key, ConfirmBooking) && Confirm(s, c).Ok?
    ensures c.slot in s.inventory.slots && s.inventory.slots[c.slot].price.Some? && c.context.Some?
    ensures var o, row := Confirm(s, c).value, s.inventory.slots[c.slot];
            && o.response == Confirmation(b) && b.id == s.inventory.nextId
            && BookedAs(b, c, row, row.price.value, c.context.value)
            && o.state.bookings == s.bookings[b.id := b] && o.state.cancellations == s.cancellations
            && c.slot in o.state.inventory.slots && SE.BookedRow(row, o.state.inventory.slots[c.slot], b.id)
            && o.state.inventory.slots == s.inventory.slots[c.slot := o.state.inventory.slots[c.slot]]
            && |o.state.records| == |s.records| + 1 && o.state.records[..|s.records|] == s.records
            && Kept(o.state.records[|s.records|], c.partner, c.environment, c.key, ConfirmBooking,
                    ConfirmRequest(c.hold, c.reference, c.customer, c.payment), Confirmation(b), c.at)
            && Posted(B.Rows(s.books), B.Rows(o.state.books), b, s.books.nextId)
  {
    SE.ConfirmsWhen(s.inventory, c.slot, c.hold, c.partner, c.environment, c.at);
    var row := s.inventory.slots[c.slot];
    b := NewBooking(s, c, row.price.value, c.context.value, row);
    AmountsAre(row.price.value, c.context.value.rates);
    RowsPosted(s.books, b);
  }

  // ----------------------------------------------------------------- the rule that applies

  /** The whole minutes left until the start; none after it. */
  predicate MinutesLeft(m: int, startsAt: Time, now: Time) {
    if startsAt < now then m == 0 else 60_000 * m <= startsAt - now < 60_000 * (m + 1)
  }

  /** A rule applies from its threshold on; one without a threshold always. */
  function ThresholdOf(r: R.Rule): int {
    match r.minMinutes
    case Some(t) => t
    case None => 0
  }

  /** The rule with the largest threshold reached, the earlier of equal ones. */
  predicate Applies(rules: seq<R.Rule>, m: int, k: nat) {
    && k < |rules| && m >= ThresholdOf(rules[k])
    && (forall j :: 0 <= j < |rules| && m >= ThresholdOf(rules[j]) ==> ThresholdOf(rules[j]) <= ThresholdOf(rules[k]))
    && (forall j :: 0 <= j < k && m >= ThresholdOf(rules[j]) ==> ThresholdOf(rules[j]) < ThresholdOf(rules[k]))
  }

  predicate NoneApplies(rules: seq<R.Rule>, m: int) {
    forall j :: 0 <= j < |rules| ==> m < ThresholdOf(rules[j])
  }

  /** Basis points as whole percents, a half going up, never below 0 or above 100. */
  predicate PercentFrom(percent: int, bps: int) {
    || (percent == 0 && bps < 50)
    || (0 < percent < 100 && 100 * percent - 50 <= bps < 100 * percent + 50)
    || (percent == 100 && bps >= 9_950)
  }

  function First<T>(a: Option<T>, b: Option<T>, otherwise: T): T {
    match a
    case Some(x) => x
    case None =>
      match b
      case Some(y) => y
      case None => otherwise
  }

  /** The refund and the release that a rule's own fields give, or else the default's. */
  predicate GivenBy(p: R.Policy, snapshot: R.PolicySnapshot, bps: Option<int>, release: Option<bool>, m: int) {
    && PercentFrom(p.refundPercent, First(bps, snapshot.defaultRefundBps, 0))
    && (p.releaseInventory <==> First(release, snapshot.defaultRelease, false) && m >= First(snapshot.resaleCutoff, None, 0))
  }

  /** What the snapshot says with `m` minutes left. */
  predicate PolicyAt(p: R.Policy, snapshot: R.PolicySnapshot, m: int) {
    && (p.allowed <==> snapshot.allowed == Some(true))
    && (p.allowed ==>
          && (forall k :: 0 <= k < |snapshot.rules| && Applies(snapshot.rules, m, k) ==> GivenBy(p, snapshot, snapshot.rules[k].refundBps, snapshot.rules[k].release, m))
          && (NoneApplies(snapshot.rules, m) ==> GivenBy(p, snapshot, None, None, m)))
    && (!p.allowed ==> p.refundPercent == 0 && !p.releaseInventory)
  }

  lemma ClampIs(bps: int)
    ensures PercentFrom(R.ClampPercent(bps), bps)
  {
  }

  lemma AppliesIsBest(rules: seq<R.Rule>, m: int, k: nat)
    ensures Applies(rules, m, k) <==> R.Best(rules, m, k)
  {
  }

  /** One rule applies or none, and the policy is what the snapshot says then. */
  lemma PolicyIs(snapshot: R.PolicySnapshot, startsAt: Time, now: Time) returns (m: int)
    ensures MinutesLeft(m, startsAt, now) && m >= 0
    ensures NoneApplies(snapshot.rules, m) || exists k :: 0 <= k < |snapshot.rules| && Applies(snapshot.rules, m, k)
    ensures PolicyAt(R.CancellationPolicy(snapshot, startsAt, now), snapshot, m)
  {
    m := R.MinutesBefore(startsAt, now);
    var rules := snapshot.rules;
    var best := R.FindBest(rules, m);
    if best.Some? {
      AppliesIsBest(rules, m, best.value);
    }
    var chosen := R.Chosen(rules, m);
    ClampIs(R.RefundBps(snapshot, chosen));
    forall k | 0 <= k < |rules| && Applies(rules, m, k)
      ensures chosen == Some(rules[k])
    {
      AppliesIsBest(rules, m, k);
      R.BestIsChosen(rules, m, k);
    }
    if NoneApplies(rules, m) {
      R.NoneChosen(rules, m);
    }
  }

  // ------------------------------------------------------------------- cancellations

  /** `amount` is `percent` of `gross`, to the nearest unit and a half going up. */
  predicate PartOf(amount: int, gross: int, percent: int) {
    200 * amount <= 2 * gross * percent + 100 < 200 * (amount + 1)
  }

  lemma RefundAmountIs(gross: int, percent: int)
    ensures PartOf(R.RefundAmount(gross, percent), gross, percent)
  {
    assert 2 * (gross * percent) == 2 * gross * percent;
  }

  /** What is recorded of a cancellation under a policy. */
  predicate RecordedAs(x: Cancellation, c: CancelCall, b: Booking, p: R.Policy) {
    && x.booking == b.id && x.refundPercent == p.refundPercent && PartOf(x.refundAmount, b.amounts.gross, p.refundPercent)
    && (x.released <==> p.releaseInventory) && x.key == c.key && x.cancelledAt == c.at && x.correlation == c.correlation
  }

  /** What becomes of the slot: removed, open again, or withdrawn. */
  predicate SlotLeft(before: S.Table, after: S.Table, slot: Id, released: bool)
    requires slot in before
  {
    if released && before[slot].slotType == S.OpenTime && before[slot].source == S.FromBooking then SE.Removed(before, after, slot)
    else
      slot in after && SE.GivenBack(before[slot], after[slot], if released then S.Available else S.Unavailable)
      && after == before[slot := after[slot]]
  }

  /** What a cancellation on a new key writes, step by step. */
  lemma CancelWrites(s: System, c: CancelCall) returns (b: Booking, p: R.Policy, x: Cancellation)
    requires Fresh(s, c.partner, c.environment, c.key, CancelBooking(c.booking)) && Cancel(s, c).Ok?
    ensures c.booking in s.bookings && b == s.bookings[c.booking]
    ensures b.partner == Some(c.partner) && b.environment == c.environment && b.status == Confirmed
    ensures p == R.CancellationPolicy(b.policy, b.startsAt, c.at) && p.allowed && x == NewCancellation(s, c, b, p)
    ensures I.Dispose(s.inventory, b.slot, b.id, p.releaseInventory).Ok?
    ensures B.PostCancellation(s.books, SnapshotOf(b), p.refundPercent, c.at, c.correlation).Ok?
    ensures Cancel(s, c).value == Outcome(CancelledSystem(s, c, b, x, I.Dispose(s.inventory, b.slot, b.id, p.releaseInventory).value,
                                                          B.PostCancellation(s.books, SnapshotOf(b), p.refundPercent, c.at, c.correlation).value),
                                          Cancelling(x))
  {
    b := s.bookings[c.booking];
    p := R.CancellationPolicy(b.policy, b.startsAt, c.at);
    x := NewCancellation(s, c, b, p);
  }

  /**
   A cancellation on a new key records the refund and the release of the rule that applies
   to the time left at its clock reading, ends the booking, gives its slot back as recorded
   and keeps the answer for a day.
   */
  lemma CancelRecords(s: System, c: CancelCall) returns (x: Cancellation, p: R.Policy, m: int)
    requires Inv(s) && Fresh(s, c.partner, c.environment, c.key, CancelBooking(c.booking)) && Cancel(s, c).Ok?
    ensures c.booking in s.bookings && s.bookings[c.booking].slot in s.inventory.slots
    ensures var o, b := Cancel(s, c).value, s.bookings[c.booking];
            && b.partner == Some(c.partner) && b.environment == c.environment && b.status == Confirmed
            && MinutesLeft(m, b.startsAt, c.at) && PolicyAt(p, b.policy, m) && p.allowed
            && (NoneApplies(b.policy.rules, m) || exists k :: 0 <= k < |b.policy.rules| && Applies(b.policy.rules, m, k))
            && o.response == Cancelling(x) && RecordedAs(x, c, b, p)
            && o.state.cancellations == s.cancellations + [x] && o.state.bookings == s.bookings[b.id := b.(status := Cancelled)]
            && SlotLeft(s.inventory.slots, o.state.inventory.slots, b.slot, x.released)
            && |o.state.records| == |s.records| + 1 && o.state.records[..|s.records|] == s.records
            && Kept(o.state.records[|s.records|], c.partner, c.environment, c.key, CancelBooking(c.booking),
                    CancelRequest(c.booking, c.reasonCode, c.reasonText), Cancelling(x), c.at)
  {
    var b;
    b, p, x := CancelWrites(s, c);
    assert HasSlot(b, s.inventory.slots) && b.id == c.booking;
    m := PolicyIs(b.policy, b.startsAt, c.at);
    RefundAmountIs(b.amounts.gross, p.refundPercent);
    SE.DisposeLeaves(s.inventory, b.slot, b.id, p.releaseInventory);
  }

  /** Both sides of a confirmed booking's refund are its percentage of the gross. */
  lemma RefundSides(b: Booking, percent: nat, at: Time, correlation: string, id: Id)
    requires b.partner.Some? && b.contract.Some? && L.BookingAmountsError(SnapshotOf(b)) == None && percent <= 100
    ensures var posted := T.RefundRows(JournalOf(b), percent, at, correlation, id);
            LT.Side(posted, LT.Debit) == LT.Side(posted, LT.Credit) == R.RefundAmount(b.amounts.gross, percent)
  {
    var journal := JournalOf(b);
    T.BookingJournal(SnapshotOf(b), b.confirmedAt, b.correlation, b.journal);
    L.BookingSides(SnapshotOf(b), b.confirmedAt, b.correlation, b.journal);
    L.RefundChecked(SnapshotOf(b), journal, percent, at, correlation, id);
  }

  /** On the books a first cancellation turns the booking's rows around, each side worth the refund. */
  lemma RefundIsPosted(books: B.Books, b: Booking, percent: nat, at: Time, correlation: string) returns (posted: seq<LT.Row>)
    requires BI.Inv(books) && Journaled(B.Rows(books), b) && b.status == Confirmed && b.partner.Some?
    requires percent <= 100 && correlation != ""
    ensures B.PostCancellation(books, SnapshotOf(b), percent, at, correlation).Ok?
    ensures B.Rows(B.PostCancellation(books, SnapshotOf(b), percent, at, correlation).value) == B.Rows(books) + posted
    ensures CE.RefundOf(posted, B.Rows(books), SnapshotOf(b), at, correlation, books.nextId)
    ensures LT.Side(posted, LT.Debit) == LT.Side(posted, LT.Credit) == R.RefundAmount(b.amounts.gross, percent)
  {
    LTm.LedgerCancels(books, b, percent, at, correlation);
    posted := CE.RefundLeaves(books, SnapshotOf(b), percent, at, correlation);
    assert posted == T.RefundRows(JournalOf(b), percent, at, correlation, books.nextId) by {
      BI.AppendRows(books, T.RefundRows(JournalOf(b), percent, at, correlation, books.nextId));
      assert (B.Rows(books) + posted)[|B.Rows(books)|..] == posted;
    }
    RefundSides(b, percent, at, correlation, books.nextId);
  }

  /** The ledger side of a cancellation on a new key: reversals of the booking's rows, each side worth the recorded refund. */
  lemma CancelPostsRefund(s: System, c: CancelCall) returns (posted: seq<LT.Row>)
    requires Inv(s) && Fresh(s, c.partner, c.environment, c.key, CancelBooking(c.booking)) && Cancel(s, c).Ok? && c.correlation != ""
    ensures Cancel(s, c).value.response.Cancelling?
    ensures B.Rows(Cancel(s, c).value.state.books) == B.Rows(s.books) + posted
    ensures c.booking in s.bookings && CE.RefundOf(posted, B.Rows(s.books), SnapshotOf(s.bookings[c.booking]), c.at, c.correlation, s.books.nextId)
    ensures LT.Side(posted, LT.Debit) == LT.Side(posted, LT.Credit) == Cancel(s, c).value.response.cancellation.refundAmount
  {
    var b, p, x := CancelWrites(s, c);
    R.PolicyInRange(b.policy, b.startsAt, c.at);
    assert Journaled(B.Rows(s.books), b) && b.id == c.booking;
    posted := RefundIsPosted(s.books, b, x.refundPercent, c.at, c.correlation);
  }

  /** A new key cancels exactly a confirmed booking of the partner whose terms allow it; nothing else can stop it. */
  lemma CancelsWhen(s: System, c: CancelCall)
    requires Inv(s) && Fresh(s, c.partner, c.environment, c.key, CancelBooking(c.booking)) && c.correlation != ""
    ensures var error := match Cancel(s, c) case Ok(_) => None case Err(e) => Some(e);
            if c.booking !in s.bookings || s.bookings[c.booking].partner != Some(c.partner) || s.bookings[c.booking].environment != c.environment
              then error == Some(BookingNotFound)
            else if s.bookings[c.booking].status == Cancelled then error == Some(BookingNotCancellable)
            else if s.bookings[c.booking].policy.allowed != Some(true) then error == Some(CancellationNotAllowed)
            else error == None
  {
    LTm.CancelSucceeds(s, c);
    if c.booking in s.bookings {
      var m := PolicyIs(s.bookings[c.booking].policy, s.bookings[c.booking].startsAt, c.at);
    }
  }

  // ------------------------------------------------------------------ the owner's bookings

  /** An owner's booking is of nobody and for nothing, on the slot placed for it. */
  lemma DirectBooks(s: System, p: I.Placement, scan: seq<S.Slot>, venue: Id, correlation: string)
    requires p.request.DirectBooking?
    ensures BookDirect(s, p, scan, venue, correlation).Ok? <==> I.Commit(s.inventory, p, scan).Ok?
    ensures BookDirect(s, p, scan, venue, correlation).Ok? ==>
              var t, id := BookDirect(s, p, scan, venue, correlation).value, s.inventory.nextId + 1;
              && id in t.bookings && t == s.(inventory := I.Commit(s.inventory, p, scan).value, bookings := s.bookings[id := t.bookings[id]])
              && var b := t.bookings[id];
                 && b.id == id && b.slot == s.inventory.nextId && b.venue == venue && b.environment == p.interval.environment
                 && b.startsAt == p.interval.startsAt && b.confirmedAt == p.at && b.status == Confirmed && b.correlation == correlation
                 && b.partner == None && b.hold == None && b.contract == None
                 && b.amounts.gross == 0 && b.amounts.commission == 0 && b.amounts.tax == 0 && b.amounts.venueNet == 0
  {
  }

  /** An owner cancels exactly a confirmed booking of the venue's own, and its slot is removed. */
  lemma DirectCancels(s: System, venue: Id, id: Id, percent: int, amount: int, correlation: string, at: Time)
    requires Inv(s)
    ensures CancelDirect(s, venue, id, percent, amount, correlation, at).Ok?
       <==> id in s.bookings && s.bookings[id].venue == venue && s.bookings[id].status == Confirmed && s.bookings[id].partner == None
    ensures CancelDirect(s, venue, id, percent, amount, correlation, at).Ok? ==>
              var t, b := CancelDirect(s, venue, id, percent, amount, correlation, at).value, s.bookings[id];
              && t == s.(inventory := t.inventory, bookings := s.bookings[id := b.(status := Cancelled)], cancellations := t.cancellations)
              && SE.Removed(s.inventory.slots, t.inventory.slots, b.slot) && t.inventory == s.inventory.(slots := t.inventory.slots)
              && |t.cancellations| == |s.cancellations| + 1 && t.cancellations[..|s.cancellations|] == s.cancellations
              && var x := t.cancellations[|s.cancellations|];
                 && x.booking == id && x.refundPercent == percent && x.refundAmount == amount && x.released && x.cancelledAt == at
                 && x.correlation == correlation
  {
    if id in s.bookings {
      var b := s.bookings[id];
      assert HasSlot(b, s.inventory.slots);
      SE.ReleaseDirectLeaves(s.inventory, b.slot, id);
      if b.status == Confirmed {
        LTm.NoCancellationYet(s.cancellations, s.bookings, id);
      }
    }
  }

  // ------------------------------------------------------------ the close within every run

  function BooksAfter(books: B.Books, c: Option<BT.Command>): B.Books {
    match c
    case None => books
    case Some(command) => BT.Step(books, command)
  }

  lemma ConfirmBooksStep(s: System, call: ConfirmCall) returns (c: Option<BT.Command>)
    ensures After(s, SConfirm(call)).books == BooksAfter(s.books, c)
  {
    c := None;
    if Confirm(s, call).Ok? && FindRecord(s.records, call.partner, call.environment, call.key, ConfirmBooking) == None {
      var b := ConfirmNewIs(s, call);
      c := Some(BT.CPostBooking(SnapshotOf(b), b.confirmedAt, b.correlation));
    }
  }

  lemma CancelBooksStep(s: System, call: CancelCall) returns (c: Option<BT.Command>)
    ensures After(s, SCancel(call)).books == BooksAfter(s.books, c)
  {
    c := None;
    if Cancel(s, call).Ok? && FindRecord(s.records, call.partner, call.environment, call.key, CancelBooking(call.booking)) == None {
      var b, x := CancelNewIs(s, call);
      c := Some(BT.CPostCancellation(SnapshotOf(b), x.refundPercent, x.cancelledAt, x.correlation));
    }
  }

  /** One step of the whole machine moves the books by one transaction of the close, or not at all. */
  lemma BooksStep(s: System, step: Step) returns (c: Option<BT.Command>)
    requires Possible(s, step)
    ensures After(s, step).books == BooksAfter(s.books, c)
  {
    match step
    case Finances(command) => c := Some(command);
    case SConfirm(call) => c := ConfirmBooksStep(s, call);
    case SCancel(call) => c := CancelBooksStep(s, call);
    case _ => c := None;
  }

  /** The books of a run of the whole machine are those of a run of the close. */
  lemma {:induction false} BooksOfRun(run: seq<System>, steps: seq<Step>, courts: map<Id, nat>, clock: Time)
    returns (commands: seq<BT.Command>)
    requires LTm.Path(run, steps) && run[0] == LTm.Start(courts, clock)
    ensures run[|steps|].books == BT.Run(B.EMPTY, commands)
  {
    commands := [];
    if steps != [] {
      var n := |steps| - 1;
      assert LTm.Leads(run[n], steps[n], run[n + 1]);
      commands := BooksOfRun(run[..|run| - 1], steps[..n], courts, clock);
      var c := BooksStep(run[n], steps[n]);
      if c.Some? {
        commands := commands + [c.value];
        assert commands[..|commands| - 1] + [c.value] == commands;
      }
    }
  }

  /** In every reachable state of the whole machine a settled row is dated in the period of its settlement. */
  lemma SettledInPeriod(run: seq<System>, steps: seq<Step>, courts: map<Id, nat>, clock: Time, k: nat)
    requires LTm.Path(run, steps) && run[0] == LTm.Start(courts, clock)
    requires k < |B.Rows(run[|steps|].books)| && B.Rows(run[|steps|].books)[k].settlement.Some?
    ensures var books := run[|steps|].books;
            var r, s := B.Rows(books)[k], B.Rows(books)[k].settlement.value;
            s in books.settlements && books.settlements[s].periodStart <= r.effectiveAt && r.effectiveAt < books.settlements[s].periodEnd
  {
    var commands := BooksOfRun(run, steps, courts, clock);
    CE.RunKeepsPeriods(commands);
    assert CE.InItsPeriod(B.Rows(run[|steps|].books)[k], run[|steps|].books.settlements);
  }
}
