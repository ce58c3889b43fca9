# Bookings, money and messages of a venue marketplace, in Dafny

A partner holds a slot of a court, confirms it into a booking and may cancel it; a venue's
owner books and blocks courts directly; an administrator settles the money and pays the
venues; workers tell the partners. This project models the four protocols behind that, with
the arithmetic that links them, and proves what they keep over every run.

* **Ledger and financial close.** `Doubles` is division in double precision, `Split` the
  largest-remainder split of a refund with the fractions of doubles as its keys, and `SplitTies`
  when that differs from exact arithmetic. `Ledger` holds the checks and rows of every posting,
  `Aggregates` the settlement totals. `Books` is the state of the close (rows, settlements,
  reconciliations, payouts) with every transaction as a function; `BooksInvariant` is what each
  keeps and `BooksTheorems` what follows over runs. `FinancialClose` is the same close as a
  class that its transactions update in place.
* **Inventory.** `Slots` classifies overlaps, scans, consumes and restores; `Inventory` is the
  state machine of holds, confirmations, releases, owner bookings, blocks and the reaper.
  Placements read a snapshot in one step and commit in another under the court's version, the
  reaper reads in one step and releases in another, and a confirmation judges its hold by a
  clock it read at any time before it commits. `InventoryInvariant` and `InventoryTheorems`
  prove exclusivity as long as no scan is cut short and no confirmation is late,
  `InventorySound` and `InventoryFrames` what holds without these conditions, `ScanLimit`,
  `LateConfirmation` and `ExactSafety` that no weaker conditions would do. `ReaperLoop` is the
  keyset pass and `SlotStore` the repository as a class.
* **Booking lifecycle.** `Refunds` fixes amounts and picks refund rules. `Lifecycle` joins
  slots, bookings, ledger, cancellations and idempotency records in one state; `Traces`,
  `LifecycleInvariant` and `LifecycleTheorems` prove that they stay in step, `BookedOnce` that
  no two bookings collide, `LedgerParts` and `Accounts` that settlements add up to bookings.
  `BookingStore` is confirmation and cancellation as a class, write by write, with rollback.
* **Outbox.** `Outbox` advances deliveries and holds the store; `OutboxProtocol` is the state
  machine of workers, administrator and clock; `OutboxTheorems` proves fencing, finality, exact
  statuses and termination, `OutboxContacts` and `ExactContacts` exactly when an endpoint may
  be contacted again.
* **Contracts.** `Contracts` normalises terms and keeps the chain of versions.
* **Effects.** `SlotEffects`, `BookingEffects`, `CloseEffects` and `DeliveryEffects` say of
  every transaction, in the fields of the rows and documents alone, when it goes through, what
  it answers otherwise, what it leaves and what it leaves alone.

Each database transaction is one atomic step that either commits or leaves nothing behind,
except placements and the reaper, whose reads are separate steps. Confirmations,
cancellations, claims and lease renewals carry a clock reading of their own, taken at any
time before they take effect. Identifiers come from counters and are never reused; time is
one clock that never goes back. Money is exact integers; quotients are doubles where the code
reads more of them than their rounding, and where it rounds them, rounding is exact.

Five things the code does are worth knowing:

* The overlap scan is cut at 200 rows. With 201 there is a run that sells an hour twice. The
  comment beside the limit expects a handful of rows, but an owner's direct booking has no
  greatest length.
* A confirmation compares the end of its hold with a clock it read at the start of its
  transaction. If it commits a millisecond later or more, the hold may have ended and its
  interval may have been sold to somebody else, and nothing stops either
  (`ExactSafety.CodeIsExact`). The reaper may then put a slot below the new booking back
  on offer (`ExactSafety.ReaperIsExactUnder`). Asking for a hold with at least m left,
  for some m that no confirmation takes, would do (`ExactSafety.SafetyIsExact`).
* A send is not fenced. When it outlasts the lease renewed for it, or an administrator retries
  another endpoint of the event meanwhile, an endpoint can be contacted again after its success
  was saved; otherwise it never is (`ExactContacts.ContactIsExact`).
* Rates that total 100 percent and a price that halves both make the venue net -1, and the
  ledger then refuses the confirmation (`Refunds.VenueNetBound`, `Refunds.HalfAndHalf`,
  `LifecycleTheorems.ConfirmSucceeds`).
* Equal remainders of a refund split are ordered by the noise of the double quotients, not by
  row. That changes which row gives back a unit exactly when a row overtakes another across the
  cut (`SplitTies.CodeIsExact`), for shares below 2^46 only at a tie there
  (`SplitTies.OnlyTiesOvertake`), and does for a price of 112 at 9.82 and 0.89 percent refunded
  at 30 percent (`SplitTies.TiedBooking`). The split proved here computes those doubles, as the
  code does; sums and bounds are the same in either order.

## Model

| member | source | states |
|---|---|---|
| Doubles.QuotientIsDouble | src/modules/ledger/ledger.service.ts:387-388 | The quotient of the model is the double the division gives: a power of two times an integer of 53 binary digits, and the nearest multiple of it |
| Doubles.DoublesAgree | src/modules/ledger/ledger.service.ts:382-388 | While a product is at most 2^53, Math.floor and Math.round of its double quotient give what the exact quotient gives, and the double has a fraction if and only if the exact quotient has |
| Doubles.FractionsOrdered | src/modules/ledger/ledger.service.ts:388-394 | While quotients are below 2^46, doubles keep unequal remainders in order |
| Split.FairIsUnique | src/modules/ledger/ledger.service.ts:373-406 | For given keys, the refund rule (each direction sums to its rounded target, a row gets its floor or, only with a remainder, one unit more, larger keys first and then earlier rows) leaves exactly one possible split |
| Split.FairBounds | src/modules/ledger/ledger.service.ts:373-406 | Every share is the floor or the ceiling of its exact value, never above the original amount, and the whole amount at 100 percent |
| Split.LeftoverBound | src/modules/ledger/ledger.service.ts:386-403 | In any order that serves rows with a remainder first, the units left over after the floors never outnumber those rows, so the loop hands out every unit |
| Split.EnumeratedSum | src/modules/ledger/ledger.service.ts:379-392 | Summing over the shares in any order is summing over the rows of the direction |
| Split.AnyOrderSplits | src/modules/ledger/ledger.service.ts:391-404 | Whatever order equal remainders fall in, the direction sums exactly to the rounded target and each row gets its floor or, only with a remainder, one unit more |
| Split.ScaledIsFair | src/modules/ledger/ledger.service.ts:373-406 | The split as a function obeys the rule, with the fractions of the double quotients as its keys, for every list of rows and every percentage |
| Split.ScaledTotal | src/modules/ledger/ledger.service.ts:382-404 | Each direction of the split sums exactly to the rounded share of its total |
| Split.ScaledBounds | src/modules/ledger/ledger.service.ts:387-404 | No share is negative or above its row, and at 100 percent every share is its row |
| Split.HandOut | src/modules/ledger/ledger.service.ts:397-403 | Walking the sorted shares gives one unit more to exactly the first `left` of them and leaves all other positions alone |
| Split.Serve | src/modules/ledger/ledger.service.ts:378-404 | One pass of the outer loop serves its direction and does not touch the other |
| Split.ScaledBalancedAmounts | src/modules/ledger/ledger.service.ts:373-406 | The two imperative passes compute the one split that obeys the rule with the fractions of the double quotients as keys |
| Split.SharesAreDoubles | src/modules/ledger/ledger.service.ts:382-389 | While products are at most 2^53 the floors, keys and target of the model are those the code computes in doubles |
| SplitTies.OrderMattersAtTies | src/modules/ledger/ledger.service.ts:391-404 | Every order of equal remainders gives the one split if and only if in neither direction the last row with a unit and the first without have equal remainders |
| SplitTies.CodeIsExact | src/modules/ledger/ledger.service.ts:386-404 | The split of the code is the one in exact arithmetic if and only if in the order of the doubles no row without a unit comes before a row with one |
| SplitTies.OnlyTiesOvertake | src/modules/ledger/ledger.service.ts:386-404 | Below 2^46 that takes a later row of equal remainder with the larger double at a tied cut, so without a tied cut the code gives the exact split |
| SplitTies.TiedBooking | src/modules/ledger/ledger.service.ts:80-104 | A price of 112 at 982 and 89 basis points, refunded at 30 percent: commission and tax give back 3 and 1 where exact arithmetic takes 4 and 0 |
| LedgerTypes.BalanceIsDifference | src/modules/ledger/ledger.service.ts:256-280 | Balance is credits minus debits, so equal sides mean balance zero |
| Ledger.JournalAccepted | src/modules/ledger/ledger.service.ts:241-281 | A journal is accepted if and only if it has two rows, every amount is in range, all rows share one scope and the two sides agree within range |
| Ledger.ValidateLedgerJournal | src/modules/ledger/ledger.service.ts:241-281 | The accumulating loop returns the first complaint in the order of the code, or none |
| Ledger.BookingSides | src/modules/ledger/ledger.service.ts:80-104 | A booking journal debits the gross and credits commission, tax and venue net |
| Ledger.BookingAccepted | src/modules/ledger/ledger.service.ts:80-104 | A booking is posted if and only if its amounts are in range and add up and its partner, contract and correlation are given; the journal check never refuses what the amount check let through |
| Ledger.ValidateReversals | src/modules/ledger/ledger.service.ts:408-433 | The loop with its growing set accepts exactly the reversals that each offset an original of the other direction, by no more than it, and no original twice |
| Ledger.ReversalsAccepted | src/modules/ledger/ledger.service.ts:408-433 | Reversals are accepted if and only if each takes back at most all of an original on the other side, and no two of the same original |
| Ledger.CancellationTotal | src/modules/ledger/ledger.service.ts:106-184 | On a posted and unreversed booking every check of a cancellation passes, each side of the refund is the rounded share, no reversal exceeds its original, and at 100 percent every non-zero row is reversed in full |
| Ledger.CancellationPosts | src/modules/ledger/ledger.service.ts:144-184 | Whatever a cancellation appends is a balanced journal of reversals of rows the ledger holds |
| Ledger.AdjustmentPosts | src/modules/ledger/ledger.service.ts:186-227 | An accepted adjustment is a balanced journal of adjustment rows in the scope of its booking |
| Aggregates.Accumulate | src/modules/financial-close/financial-close.service.ts:1433-1458 | Each row moves the accumulator its component and type name, by its signed amount |
| Aggregates.AggregateEntries | src/modules/financial-close/financial-close.service.ts:1417-1460 | The loop of five accumulators computes the aggregate of its entries |
| Aggregates.AggregateIsTotalled | src/modules/financial-close/financial-close.service.ts:1421-1435 | Rows carry their own component, so which originals were looked up never changes a total |
| Aggregates.RowImbalance | src/modules/financial-close/financial-close.service.ts:1433-1502 | Whatever its kind, a well-formed row moves the imbalance by its signed amount |
| Aggregates.PartitionAddsUp | src/modules/financial-close/financial-close.service.ts:1417-1460 | The aggregate is additive: the pieces of any partition of the rows add up to the whole |
| Aggregates.QueriesTakeJournalsWhole | src/modules/ledger/ledger.repository.ts:66-126 | No query on settlement, venue, payout or period tells the rows of one journal apart |
| Aggregates.SelectionNetsOut | src/modules/financial-close/financial-close.service.ts:1481-1502 | Over a ledger of whole journals the imbalance of every selection is zero, whatever mix of bookings, partial refunds and adjustments it holds |
| Traces.BookingTotals | src/modules/financial-close/financial-close.service.ts:1452-1458 | A booking journal adds exactly the booking's gross, commission, tax and venue net to a settlement |
| Books.MaxLagIsLargest | src/modules/financial-close/financial-close.service.ts:243-255 | The lag a settlement falls due with is the largest among the contracts of its entries |
| BooksInvariant.PostingKeeps | src/modules/ledger/ledger.repository.ts:60-65 | Appending a journal keeps journals whole, stored totals equal to their rows, and every status in step |
| BooksInvariant.PutJournals | src/modules/ledger/ledger.repository.ts:83-126 | An allocation that takes what a query hits takes whole journals, so all rows of a journal keep one settlement and one payout |
| BooksInvariant.GenerateKeeps | src/modules/financial-close/financial-close.service.ts:173-341 | A generated settlement keeps the whole invariant: its stored totals equal the totals of its rows, and no other settlement or payout changes |
| BooksInvariant.SubmitKeeps | src/modules/financial-close/financial-close.service.ts:343-350 | Submission keeps the invariant |
| BooksInvariant.ReconcileKeeps | src/modules/financial-close/financial-close.service.ts:352-459 | A reconciliation keeps one record per settlement and a status that matches it: MATCHED exactly when the reported amount is the net |
| BooksInvariant.ResolveKeeps | src/modules/financial-close/financial-close.service.ts:461-524 | A resolution keeps the invariant: only a mismatched settlement moves, and its one record becomes resolved |
| BooksInvariant.CompleteKeeps | src/modules/financial-close/financial-close.service.ts:526-622 | Completion keeps the invariant: a completed settlement has a record that is not a mismatch and a completion date |
| BooksInvariant.InitiatePayoutKeeps | src/modules/financial-close/financial-close.service.ts:654-862 | A payout keeps the invariant: it takes exactly the rows of its settlement and venue, its amount is their net and positive, and each key, settlement and venue has one payout |
| BooksInvariant.RecordPayoutResultKeeps | src/modules/financial-close/financial-close.service.ts:864-947 | A recorded result keeps the invariant, including one payout per bank reference |
| BooksInvariant.RecordAdjustmentKeeps | src/modules/financial-close/financial-close.service.ts:1012-1091 | A recorded adjustment keeps the invariant and changes no stored total |
| BooksTheorems.RunKeeps | src/modules/financial-close/financial-close.service.ts:173-1091 | The invariant holds after every sequence of postings and financial-close transactions from empty books, failed ones included |
| BooksTheorems.GenerateSucceeds | src/modules/financial-close/financial-close.service.ts:173-341 | A settlement is generated if and only if the period is valid and free, there are unsettled rows, their contracts are known and of one cycle and the totals are in range; the reference, imbalance and allocation checks never stop it (which rows those are: `CloseEffects.GenerateTakesPeriod`) |
| BooksTheorems.PayoutSucceeds | src/modules/financial-close/financial-close.service.ts:654-862 | A new payout goes through if and only if the settlement is completed, the gate is clear, the venue has none yet and its net is positive and in range; the scope, reference, imbalance and allocation checks never stop it |
| BooksTheorems.SettlementsConserve | src/modules/financial-close/financial-close.service.ts:201-284 | However periods overlap, the stored totals of all settlements of a partner plus the totals of its unsettled rows are the totals of its whole ledger |
| BooksTheorems.PayoutsConserve | src/modules/financial-close/financial-close.service.ts:654-850 | The payouts of a settlement plus the nets of its venues without one are its stored net |
| BooksTheorems.RunGrows | src/modules/financial-close/financial-close.repository.ts:202-279 | Over every run a settlement keeps its partner, period and totals and only moves forward, a payout leaves PENDING at most once, and no row leaves its settlement or payout |
| BooksTheorems.StoredTotalsLast | src/modules/financial-close/financial-close.service.ts:201-284 | The totals stored with a settlement equal the totals of its rows in every later state and never change |
| BooksTheorems.SettlementLifecycle | src/modules/financial-close/financial-close.service.ts:343-622 | In every reachable state a settlement is reconciling exactly when its record is a mismatch, reconciled or completed exactly when it is matched or resolved, matched exactly when the reported amount is the net, and completed if it has any payout |
| FinancialClose.FinanceStore.Find | src/modules/ledger/ledger.repository.ts:66-112 | A finder returns exactly the rows its filter hits, in collection order (the filters by row fields: `CloseEffects.GenerateTakesPeriod`, `CloseEffects.PayoutTakesShare`) |
| FinancialClose.FinanceStore.Allocate | src/modules/ledger/ledger.repository.ts:83-126 | The counted update writes the allocation on exactly the rows it takes and counts them |
| FinancialClose.FinanceStore.RecordBooking | src/modules/ledger/ledger.service.ts:80-104 | Posts exactly the journal of the specification or changes nothing |
| FinancialClose.FinanceStore.RecordCancellation | src/modules/ledger/ledger.service.ts:106-184 | Posts exactly the reversals of the specification or changes nothing |
| FinancialClose.FinanceStore.HydrateReversalOriginals | src/modules/financial-close/financial-close.service.ts:1207-1243 | Finds the originals outside the batch, or refuses when one is missing or out of scope |
| FinancialClose.FinanceStore.Batch | src/modules/financial-close/financial-close.service.ts:205-250 | The checks on the entries of a batch, in the order of the code, and the settlement they lead to |
| FinancialClose.FinanceStore.GenerateSettlement | src/modules/financial-close/financial-close.service.ts:173-341 | Makes exactly the specified step (what that is by row fields: `CloseEffects.GenerateTakesPeriod`); a conflict found after the writes takes them back |
| FinancialClose.FinanceStore.Transition | src/modules/financial-close/financial-close.repository.ts:202-233 | Moves a status if and only if it is the expected one |
| FinancialClose.FinanceStore.SubmitSettlement | src/modules/financial-close/financial-close.service.ts:343-350 | Makes exactly the specified step or changes nothing |
| FinancialClose.FinanceStore.ReconcileSettlement | src/modules/financial-close/financial-close.service.ts:352-459 | Makes exactly the specified step or changes nothing |
| FinancialClose.FinanceStore.LatestReconciliation | src/modules/financial-close/financial-close.repository.ts:237-245 | Finds the latest reconciliation of a settlement by a backward scan |
| FinancialClose.FinanceStore.ResolveSettlement | src/modules/financial-close/financial-close.service.ts:461-524 | Makes exactly the specified step or changes nothing |
| FinancialClose.FinanceStore.CompleteSettlement | src/modules/financial-close/financial-close.service.ts:526-622 | Makes exactly the specified step or changes nothing |
| FinancialClose.FinanceStore.PayableBatch | src/modules/financial-close/financial-close.service.ts:756-790 | The scope check, the eligible rows and their totals, in the order of the code |
| FinancialClose.FinanceStore.Initiate | src/modules/financial-close/financial-close.service.ts:654-862 | Replays a known key, refuses its reuse, or makes exactly the specified payout |
| FinancialClose.FinanceStore.RecordResult | src/modules/financial-close/financial-close.service.ts:864-947 | Makes exactly the specified step or changes nothing |
| Refunds.VenueNetBound | src/modules/booking/booking-lifecycle.service.ts:935-949 | The venue net is at least -1, and -1 if and only if the rates total 100 percent and both shares round up from a half |
| Refunds.HalfAndHalf | src/modules/booking/booking-lifecycle.service.ts:935-949 | A price of one minor unit at 50 percent commission and 50 percent tax has a venue net of -1, and the ledger refuses it |
| Refunds.AmountsAreDoubles | src/modules/booking/booking-lifecycle.service.ts:935-949 | While price times rate is at most 2^53, rounding the double quotients gives exactly the commission and tax of the model |
| Refunds.ConfirmationPosts | src/modules/booking/booking-lifecycle.service.ts:935-949 | The ledger accepts the amounts of a confirmation if and only if that case does not occur |
| Refunds.BestIsChosen | src/modules/booking/booking-lifecycle.service.ts:993-1003 | The stable sort and search pick the first rule of the greatest threshold the remaining minutes reach |
| Refunds.NoneChosen | src/modules/booking/booking-lifecycle.service.ts:993-1003 | No rule is picked if and only if none is eligible |
| Refunds.PolicyIgnoresOrder | src/modules/booking/booking-lifecycle.service.ts:965-1014 | The policy does not depend on the order of the rules when thresholds are distinct (which rule it follows: `BookingEffects.PolicyIs`) |
| Refunds.RefundsNeverRise | src/modules/booking/booking-lifecycle.service.ts:989-1012 | Refunds never rise as the start nears if and only if the rules are monotone |
| Refunds.LaterRefundsNoMore | src/modules/booking/booking-lifecycle.service.ts:965-1014 | Under monotone rules a later cancellation never refunds more (what it refunds: `BookingEffects.PolicyIs`) |
| Refunds.RefundIsGrossReversal | src/modules/booking/booking-lifecycle.service.ts:612-614 | The ledger reverses the gross by exactly the refund the cancellation records, and not at all when that is zero |
| Slots.OneRoleEach | src/modules/venue/inventory/slot-overlap.ts:125-194 | Every overlapping row has exactly one role for an open-time writer except an inert one, and only open-time rows matter to whoever claims a fixed slot |
| Slots.ClassifyOverlap | src/modules/venue/inventory/slot-overlap.ts:125-194 | The filtering and sorting loop returns exactly the blocking, consumable and stale rows, in scan order |
| Slots.ScanComplete | src/modules/venue/inventory/slot-overlap.ts:60-78 | Up to 200 overlapping rows a scan sees every one |
| Slots.ScanSeesOccupant | src/modules/venue/inventory/slot-overlap.ts:10-78 | When something occupies an interval, every possible scan shows it if and only if fewer than 200 overlapping rows are idle |
| Slots.RetireIsRestoreThenDelete | src/modules/booking/booking-lifecycle.repository.ts:485-528 | Retiring is restoring what the slot consumed and then deleting it |
| InventoryInvariant.CommitFixedHoldKeeps | src/modules/booking/booking-lifecycle.service.ts:108-190 | A fixed hold that commits under its court lock after a complete scan keeps the invariant: nothing that collides is occupied and no link dangles |
| InventoryInvariant.CommitOpenKeeps | src/modules/booking/booking-lifecycle.service.ts:192-306 | An open-time hold, owner booking or block that commits under its lock after a complete scan keeps the invariant, with other steps between its reading and its writing |
| InventoryInvariant.ConfirmKeeps | src/modules/booking/booking-lifecycle.repository.ts:359-405 | A confirmation that commits before its hold ends keeps the invariant, whenever it read the clock |
| InventoryInvariant.DisposeKeeps | src/modules/booking/booking-lifecycle.repository.ts:474-575 | Releasing or retiring a booked slot keeps the invariant |
| InventoryInvariant.RetireLinks | src/modules/venue/inventory/slot-consumption.ts:130-201 | Deleting a consumer after restoring leaves no dangling link |
| InventoryInvariant.ReleaseIs | src/modules/booking/booking-lifecycle.repository.ts:666-731 | The reaper deletes or frees exactly the row it read, and as long as no confirmation was late it has restored nothing when its compare-and-set misses |
| InventoryInvariant.ReapKeeps | src/modules/booking/booking-lifecycle.repository.ts:600-617 | A batch released long after it was read keeps the invariant |
| InventoryInvariant.StepKeeps | src/modules/booking/booking-lifecycle.repository.ts:241-731 | Every step, with any placements and batches under way, keeps the invariant, unless a scan was cut short or a confirmation commits after its hold has ended |
| InventorySound.StepKeepsSound | src/modules/booking/booking-lifecycle.repository.ts:241-731 | Every possible step without condition, late confirmations and cut scans included, keeps the rows well-formed, the links whole and old batches harmless |
| InventorySound.ReleaseIsSound | src/modules/booking/booking-lifecycle.repository.ts:666-731 | Whatever happened since, the reaper releases exactly a row that is as it was read; when it misses, it changes nothing or has restored what the candidate's row consumed |
| InventoryTheorems.SoldOnce | src/modules/booking/booking-lifecycle.service.ts:135-306 | Over every run of holds, confirmations, cancellations, owner bookings, blocks, reaping and time in which no scan was cut short and no confirmation commits after its hold has ended: no two colliding slots are both sold |
| InventoryTheorems.ConsumersStay | src/modules/venue/inventory/slot-consumption.ts:28-201 | Over every possible run, late confirmations and cut scans included: a consumed slot is unavailable and its consumer exists, is open-time and overlaps it |
| InventoryTheorems.ReapSpares | src/modules/booking/booking-lifecycle.repository.ts:666-731 | Whatever happened since the reaper read its batch, late confirmations included, every live hold and every booked slot stays as it is |
| InventoryTheorems.ReaperIsExact | src/modules/booking/booking-lifecycle.repository.ts:666-731 | The reaper releases a candidate if and only if its row is still the one it read, still expired |
| InventoryTheorems.MissRestoresNothing | src/modules/booking/booking-lifecycle.repository.ts:666-731 | As long as no confirmation was late, a compare-and-set that misses has restored nothing before it |
| InventoryTheorems.RetireFreesExactly | src/modules/venue/inventory/slot-consumption.ts:130-201 | Retiring a consumer frees exactly the slots that still point at it |
| InventoryTheorems.OpenPlacementCommits | src/modules/booking/booking-lifecycle.service.ts:213-306 | An open-time placement commits if and only if its court version is current, nothing it saw blocks, the interval is free of its kind and its rows are untouched; the consumption count never conflicts |
| InventoryTheorems.GridConsumed | src/modules/venue/inventory/slot-consumption.ts:28-119 | Every fixed row an open-time placement scanned is unavailable and consumed by it once it commits |
| InventoryTheorems.ExpiredHoldStays | src/modules/venue/inventory/inventory.persistence.ts:209-214 | Over every run without reaping or late confirmation, an expired open-time hold stays as it is and every placement of its exact interval fails |
| ScanLimit.SmallScansKeep | src/modules/venue/inventory/slot-overlap.ts:10-78 | Every run whose placements meet at most 200 rows and whose confirmations are not late keeps the invariant |
| ScanLimit.CrowdedRunPossible | src/modules/venue/inventory/slot-overlap.ts:10-78 | A run that generates 200 hours, books the next one and then books the whole stretch of 201 sells that hour twice |
| ExactSafety.SafetyIsExact | src/modules/booking/booking-lifecycle.service.ts:366-493 | Over all runs whose placements meet at most n rows and whose confirmations take at most d and had at least m left when they read the clock, nothing is sold twice if and only if n is at most 200 and d is zero or less than m |
| ExactSafety.CodeIsExact | src/modules/booking/booking-lifecycle.repository.ts:359-368 | As the code stands, which asks only for a hold that has not ended at the reading, nothing is sold twice if and only if n is at most 200 and confirmations commit in the millisecond in which they read the clock |
| ExactSafety.LateConfirmIsExact | src/modules/booking/booking-lifecycle.repository.ts:359-405 | However late, one confirmation keeps the court exclusive if and only if nothing that collides with its slot is occupied |
| LateConfirmation.LateRun | src/modules/booking/booking-lifecycle.service.ts:366-493 | The failing run: a hold of m, another placed across it when it has ended, and the first confirmed by a clock read before |
| ExactSafety.ReaperIsExactUnder | src/modules/booking/booking-lifecycle.repository.ts:666-731 | Over all runs within d and m the reaper never restores a slot whose consumer it then fails to release if and only if d is zero or less than m |
| ReaperLoop.LeastAfter | src/modules/booking/booking-lifecycle.repository.ts:590-600 | Finds the least expired hold after a cursor in the order of expiry and identifier |
| ReaperLoop.ReadPage | src/modules/booking/booking-lifecycle.repository.ts:590-600 | Reads the first rows after the cursor in key order, and all of them unless the page is full |
| ReaperLoop.ReleaseBatch | src/modules/booking/booking-lifecycle.repository.ts:602-617 | Releases the candidates one after another and counts each outcome |
| ReaperLoop.RecoverExpiredHolds | src/modules/booking/booking-lifecycle.repository.ts:581-633 | Whatever others do, a pass is the sequence of its batches, each reading the next expired holds in key order; it ends where the code ends it, and its five totals are exact: released by kind, batches, scanned, exhausted |
| ReaperLoop.TallyIsStill | src/modules/booking/booking-lifecycle.repository.ts:602-623 | The release counters of a batch are, by kind, the candidates whose rows are still as they were read |
| ReaperLoop.EachBatchIsExact | src/modules/booking/booking-lifecycle.repository.ts:602-617 | Each batch releases every row still as read, an open-time one gone and a fixed one available again without hold, expiry or booking and one version higher, and leaves alone every row that is neither on its page nor consumed by a row of it |
| ReaperLoop.LogAscends | src/modules/booking/booking-lifecycle.repository.ts:640-664 | Whatever others do, no hold is visited twice and holds are visited in the order of their ends, then of their identifiers |
| ReaperLoop.QuietPassReleases | src/modules/booking/booking-lifecycle.repository.ts:581-633 | Without interference the first expired holds are released in order, each once, and nothing else happens; the counters are their numbers by kind, and unless the pass is exhausted none is left |
| InventoryFrames.NeutralFrame | src/modules/booking/booking-lifecycle.repository.ts:241-731 | Steps that neither book nor cancel leave booked slots alone and reuse no hold identifier, late confirmations and cut scans notwithstanding |
| SlotStore.Store.LockCourt | src/modules/booking/booking-lifecycle.repository.ts:314-327 | Bumps the version if and only if it is the one that was read |
| SlotStore.Store.ClaimFixedHold | src/modules/booking/booking-lifecycle.repository.ts:241-301 | Claims the slot exactly under its filter, clearing hold and link, or changes nothing |
| SlotStore.Store.ConsumeFixedSlots | src/modules/venue/inventory/slot-consumption.ts:28-119 | Consumes all offered rows or, on a short count, none |
| SlotStore.Store.RestoreConsumedFixedSlots | src/modules/venue/inventory/slot-consumption.ts:130-201 | Makes exactly the rows that point at the consumer available |
| SlotStore.Store.Place | src/modules/booking/booking-lifecycle.service.ts:108-306 | Lock, classify and write make exactly the specified commit; an error undoes the lock |
| SlotStore.Store.ConfirmSlot | src/modules/booking/booking-lifecycle.repository.ts:359-405 | Books the slot exactly under its filter at the clock reading it was given |
| SlotStore.Store.DisposeSlot | src/modules/booking/booking-lifecycle.repository.ts:474-575 | Retires or updates the booked slot exactly as specified (field by field: `SlotEffects.DisposeLeaves`) |
| SlotStore.Store.ReleaseDirectSlot | src/modules/booking/owner-booking.repository.ts:274-317 | Retires the slot of an owner booking, or does nothing if it is not booked by it |
| SlotStore.Store.ReleaseExpiredHold | src/modules/booking/booking-lifecycle.repository.ts:666-731 | Restores before its compare-and-set and reports the outcome as specified (field by field: `SlotEffects.ReleaseLeaves`) |
| Traces.CancellationIsRefund | src/modules/ledger/ledger.service.ts:106-184 | A cancellation that goes through posts the refund of the booking's own journal, whatever settlement or payout has taken its rows |
| Traces.RefundPosts | src/modules/ledger/ledger.service.ts:106-184 | On a booking that was posted and not refunded the ledger side of a cancellation succeeds |
| LifecycleInvariant.ConfirmKeeps | src/modules/booking/booking-lifecycle.service.ts:330-549 | Confirming keeps slots, bookings, ledger and records in step |
| LifecycleInvariant.CancelKeeps | src/modules/booking/booking-lifecycle.service.ts:551-721 | Cancelling keeps slots, bookings, ledger, cancellations and records in step |
| LifecycleInvariant.BookDirectKeeps | src/modules/booking/owner-booking.service.ts:206-418 | An owner's booking keeps them in step |
| LifecycleInvariant.CancelDirectKeeps | src/modules/booking/owner-booking.service.ts:420-597 | The cancellation of an owner's booking keeps them in step |
| LifecycleInvariant.StepKeeps | src/modules/booking/booking-lifecycle.service.ts:330-721 | Every step of any component keeps them in step, late confirmations and cut scans included |
| LifecycleInvariant.LiveRecords | src/modules/booking/booking.persistence.ts:270-275 | What a sweep leaves is exactly the records that have not expired |
| LifecycleTheorems.CancelSucceeds | src/modules/booking/booking-lifecycle.service.ts:551-721 | A cancellation that was not answered before goes through if and only if the booking is the partner's, confirmed and cancellable under its policy; neither slot nor ledger nor unique index can stop it |
| LifecycleTheorems.ConfirmSucceeds | src/modules/booking/booking-lifecycle.service.ts:330-549 | A live priced hold is confirmed if and only if the key is new and the shares do not both round up (what it books: `BookingEffects.ConfirmBooks`) |
| LifecycleTheorems.ReplayedWithinTtl | src/modules/booking/booking-lifecycle.service.ts:804-818 | While its record lives a repeated confirmation returns the stored response and changes nothing, and another request under the key is refused |
| LifecycleTheorems.CancelReplayedWithinTtl | src/modules/booking/booking-lifecycle.service.ts:804-818 | While its record lives a repeated cancellation returns the stored response and changes nothing, and another request under the key for the same booking is refused |
| LifecycleTheorems.HoldConfirmedOnce | src/modules/booking/booking-lifecycle.service.ts:330-549 | Even after the record expired, under any key, a confirmed hold makes no second booking |
| LifecycleTheorems.CancelledOnce | src/modules/booking/booking-lifecycle.service.ts:551-721 | Over any later steps a cancelled booking is never cancelled again |
| LifecycleTheorems.OneBookingEach | src/modules/booking/booking.persistence.ts:220-227 | At most one booking per hold and per partner, environment and key, over every run |
| LifecycleTheorems.BookingAccounts | src/modules/booking/booking-lifecycle.service.ts:589-667 | Over every run a booking has exactly its confirmation journal, and no refund unless it was cancelled, in which case exactly the refund its one cancellation records |
| LifecycleTheorems.SlotsAndBookings | src/modules/booking/booking-lifecycle.repository.ts:359-575 | Over every run confirmed bookings and booked slots correspond one to one |
| BookedOnce.ConfirmedApart | src/modules/booking/booking-lifecycle.service.ts:330-549 | Over every run of the joint machine without cut scans and late confirmations, two confirmed bookings whose slots are the same or collide are one booking |
| LedgerParts.LedgerAddsUp | src/modules/ledger/ledger.repository.ts:66-112 | If all rows of a partner but adjustments are of the bookings listed, its totals are those of their confirmations, their refunds and the adjustments |
| LedgerParts.RefundTakesBack | src/modules/ledger/ledger.service.ts:144-184 | In whatever order ties are served, a refund adds the rounded share of the gross as refund and takes as much in all off commission, tax and net |
| Accounts.MoneyTrail | src/modules/financial-close/financial-close.service.ts:201-284 | Over every run of bookings, cancellations and the financial close, the stored totals of a partner's settlements and its unsettled rows together are the charges of its bookings, plus what their cancellations took back, plus adjustments |
| Accounts.RecordedRefunds | src/modules/booking/booking-lifecycle.service.ts:612-667 | Over every run, what the cancellation of a partner's booking took back in the ledger is the refund amount it recorded, off the gross and in all off commission, tax and net |
| BookingStore.Store.GetIdempotency | src/modules/booking/booking-lifecycle.repository.ts:406-417 | Finds the record of a key and operation without looking at its expiry |
| BookingStore.Store.ConfirmBookingOf | src/modules/booking/booking-lifecycle.service.ts:330-549 | Replays, refuses, or writes slot, booking, ledger and record as specified (what that is: `BookingEffects.ConfirmBooks`), leaving nothing behind on an error |
| BookingStore.Store.CancelBookingOf | src/modules/booking/booking-lifecycle.service.ts:551-721 | Replays, refuses, or writes booking, slot, cancellation, ledger and record as specified (what that is: `BookingEffects.CancelRecords`), leaving nothing behind on an error |
| BookingStore.Store.SweepRecords | src/modules/booking/booking.persistence.ts:270-275 | The TTL index removes exactly the expired records |
| BookingStore.Store.InsertCancellation | src/modules/booking/booking.persistence.ts:245-251 | Inserts if and only if the booking has no cancellation yet |
| Outbox.RetryDelays | src/shared/communications/communications.service.ts:437-444 | The wait before a retry starts at the base, never shrinks with the attempts, exceeds the greatest wait by a fifth at most, and is never negative |
| Outbox.FirstRetryIs | src/shared/communications/communications.service.ts:357-371 | The date stored with an event is the earliest retry, and there is one if and only if something is to be retried |
| Outbox.ProcessDeliveries | src/shared/communications/communications.service.ts:279-356 | The index loop overwrites each delivery in place with what its answer makes of it (field by field: `DeliveryEffects.PassLeaves`) |
| Outbox.Summary | src/shared/communications/communications.service.ts:357-371 | The scan computes the status and the next date of the saved event |
| Outbox.OutboxStore.ClaimNext | src/shared/communications/communications.repository.ts:133-158 | Claims the first claimable event in the order of date and identifier, or none if there is none |
| Outbox.OutboxStore.RenewLease | src/shared/communications/communications.repository.ts:159-174 | Extends the lease if and only if the worker still owns the event |
| Outbox.OutboxStore.SaveEvent | src/shared/communications/communications.repository.ts:175-195 | Saves if and only if the worker still owns the event |
| Outbox.OutboxStore.ScheduleRetry | src/shared/communications/communications.repository.ts:453-486 | Reschedules if and only if the endpoint has a delivery that gave up, and takes the event from whoever holds it |
| OutboxProtocol.StepKeeps | src/shared/communications/communications.repository.ts:133-195 | Every step of workers, administrator and clock keeps fences, dates and statuses |
| OutboxTheorems.SaveIsFenced | src/shared/communications/communications.repository.ts:175-195 | A save that goes through finds the event as it was claimed but for the lease, and stores what was stored moved by this worker's own sends alone |
| OutboxTheorems.OverwrittenSavesNothing | src/shared/communications/communications.repository.ts:133-195 | Once another worker or an administrator has written the event, a worker that claimed it before never saves it, whatever happens in between, unless it claims it anew |
| OutboxContacts.OwnerContactsUndelivered | src/shared/communications/communications.service.ts:279-312 | A worker that owns its event contacts no endpoint whose success is stored |
| OutboxContacts.RunHolds | src/shared/communications/communications.repository.ts:159-174 | Over every run without a retry during a send, a worker owns its event until the lease it renewed runs out |
| OutboxContacts.LateRun | src/shared/communications/communications.service.ts:279-312 | A failing run: a lease runs out during a send, another worker delivers and saves, and the endpoint is contacted again |
| OutboxContacts.RetriedRun | src/shared/communications/communications.repository.ts:453-486 | A failing run without any delay: an administrator retries another endpoint during a send, another worker delivers and saves, and the endpoint is contacted again |
| ExactContacts.ContactIsExact | src/shared/communications/communications.service.ts:279-312 | Over all runs whose sends end within a limit of the renewal before them, no endpoint is contacted after its success was saved if and only if the limit is below the lease and no event is retried during a send |
| OutboxTheorems.DeliveredLasts | src/shared/communications/communications.service.ts:279-288 | Over every run a published event never changes and a stored delivery is never undone |
| OutboxTheorems.StatusExact | src/shared/communications/communications.service.ts:357-376 | A saved event is published if and only if every endpoint is delivered and pending if and only if some delivery is to be retried |
| OutboxTheorems.SaveDrops | src/shared/communications/communications.service.ts:327-353 | Every save ends the event or leaves it strictly fewer attempts |
| OutboxTheorems.SavesBounded | src/shared/communications/communications.service.ts:279-376 | Between an administrator's retries the saves of an event are bounded by the attempts its deliveries had left |
| OutboxTheorems.SavedSendsBounded | src/shared/communications/communications.service.ts:313-356 | Between retries the sends of all saved passes never exceed the attempts the deliveries had left |
| OutboxTheorems.SendsPerClaim | src/shared/communications/communications.service.ts:279-356 | Saved or not, a worker sends at most once per endpoint for every time it claims the event |
| OutboxTheorems.EventEnds | src/shared/communications/communications.service.ts:279-376 | Between retries an event of n endpoints is saved at most 8n + 1 times, and all its saved passes together send at most 8n times |
| Contracts.NormalizeRules | src/modules/contracts/contract.service.ts:359-381 | The loop with its set accepts exactly the rule lists with distinct, non-negative thresholds and rates in range, and stores them sorted |
| Contracts.NormalizeTerms | src/modules/contracts/contract.service.ts:313-391 | Accepts exactly the valid terms, and stores every field as given, an absent cutoff as zero, and every rule, sorted by falling threshold |
| Contracts.StoredRulesNormalized | src/modules/contracts/contract.service.ts:359-381 | Sorting loses no rule and keeps thresholds distinct |
| Contracts.SaveKeeps | src/modules/contracts/contract.service.ts:187-271 | Saving keeps every pair's versions tiling time, numbered from one, with only the last open-ended |
| Contracts.SaveLeaves | src/modules/contracts/contract.service.ts:216-271 | A saved version has the next number, starts where asked, is open-ended and has the terms given; the open one before it ends there and no other changes |
| Contracts.FoundByStart | src/modules/contracts/contract.repository.ts:81-94 | After any calls the finder returns the version that has started by then and whose successor, if any, has not |
| Contracts.SaveSucceeds | src/modules/contracts/contract.service.ts:187-215 | A version is saved if and only if it starts after the latest one; superseding never conflicts |
| Contracts.RunTiles | src/modules/contracts/contract.service.ts:187-271 | After any sequence of calls the versions of every pair tile time |
| Contracts.ExactlyOneInForce | src/modules/contracts/contract.repository.ts:81-94 | From the first start on exactly one version of a pair is in force, before it none |
| Contracts.EffectiveExact | src/modules/contracts/contract.repository.ts:81-94 | After any calls the finder returns a version if and only if that version is the one in force |
| Contracts.PastStays | src/modules/contracts/contract.service.ts:187-271 | A new version never changes which terms applied before it starts |
| Contracts.ContractStore.FindLatest | src/modules/contracts/contract.repository.ts:70-80 | Finds the version that starts last |
| Contracts.ContractStore.FindEffective | src/modules/contracts/contract.repository.ts:81-94 | Finds the version in force that starts last |
| Contracts.ContractStore.Supersede | src/modules/contracts/contract.repository.ts:95-109 | Ends a version if and only if it has no end yet |
| Contracts.ContractStore.SaveVersion | src/modules/contracts/contract.service.ts:187-271 | Makes exactly the specified step or changes nothing |
| SlotEffects.ScanReturns | src/modules/venue/inventory/slot-overlap.ts:60-78 | A scan is any list of at most 200 rows of the court and environment that share time with the interval, each once and as stored, and all of them when it has fewer than 200 |
| SlotEffects.BlocksIsInTheWay | src/modules/venue/inventory/slot-overlap.ts:104-194 | What blocks or may be taken over, by the fields of the row: open-time rows that stand, fixed rows that are not free, on a hold that has ended or consumed by one that has |
| SlotEffects.BeginsWhen | src/modules/booking/booking-lifecycle.service.ts:192-226 | When an open-time placement starts: a hold lies ahead of the clock, an owner books an hour at least, the court exists; it then waits on the court version and rows it read |
| SlotEffects.BeginsFixedWhen | src/modules/booking/booking-lifecycle.service.ts:108-152 | A fixed slot can be asked for exactly while it lies ahead and has a price; the first check that fails is the answer |
| SlotEffects.OpenCommitsWhen | src/modules/booking/booking-lifecycle.service.ts:213-306 | The exact answer to an open-time placement, row by row: version, something in the way, the same interval taken, a scanned fixed row changed, in that order, and otherwise it commits |
| SlotEffects.OpenCommitWrites | src/modules/booking/booking-lifecycle.service.ts:227-306 | What it writes, field by field: one row with its hold (ending with its time to live or at the start of the slot), booking or block at its price, every scanned fixed row taken over, every other row as it was |
| SlotEffects.FixedCommitsWhen | src/modules/booking/booking-lifecycle.service.ts:135-190 | The exact answer to a fixed hold: version, a standing open-time row over the slot, the slot not free, the slot changed, in that order, and otherwise it commits |
| SlotEffects.FixedCommitWrites | src/modules/booking/booking-lifecycle.repository.ts:241-301 | What a fixed hold writes, field by field, on its slot and nowhere else |
| SlotEffects.ConfirmsWhen | src/modules/booking/booking-lifecycle.repository.ts:359-405 | A hold is confirmed exactly while its slot carries it for that partner, unbooked, and it ends after the clock reading; only that row changes, as stated field by field |
| SlotEffects.RetireRemoves | src/modules/venue/inventory/slot-consumption.ts:130-201 | A retired slot is gone, the rows of its court that it consumed are on offer again with their versions raised, and every other row is as it was |
| SlotEffects.DisposeLeaves | src/modules/booking/booking-lifecycle.repository.ts:474-575 | After a cancellation its slot is gone if it was released, open-time and from a booking; otherwise it is available exactly when released and unavailable when not, with nothing of its booking left |
| SlotEffects.ReleaseDirectLeaves | src/modules/booking/owner-booking.repository.ts:274-317 | The slot of an owner booking is removed with what it consumed given back, or nothing changes when it is not booked by it |
| SlotEffects.ReleaseBlockLeaves | src/modules/venue/inventory/inventory.repository.ts:254-312 | A block is removed exactly at the version that was read, and what it consumed is on offer again |
| SlotEffects.SetFixedLeaves | src/modules/venue/inventory/inventory.repository.ts:146-200 | An open fixed slot can be blocked and a blocked one opened, exactly at the version read; only status and version change |
| SlotEffects.AddFixedLeaves | src/modules/venue/inventory/inventory.repository.ts:113-145 | A fixed slot is added exactly where the interval has none, open, at its price and at version 1 |
| SlotEffects.ReleaseLeaves | src/modules/booking/booking-lifecycle.repository.ts:666-731 | Of a candidate still as read, the reaper removes an open-time row and puts a fixed one back on offer with no hold, expiry or booking, one version higher; the outcome says which |
| BookingEffects.AmountsAre | src/modules/booking/booking-lifecycle.service.ts:935-949 | The gross is the price, commission and tax are their own rates of it to the nearest unit and a half going up, and the venue net is the rest |
| BookingEffects.RowsPosted | src/modules/ledger/ledger.service.ts:80-104 | A confirmation appends four rows, each with the direction, type, component and amount of its part and the scope, date and correlation of the booking |
| BookingEffects.ConfirmsWhen | src/modules/booking/booking-lifecycle.service.ts:366-493 | The exact answer to a confirmation under a new key: no live hold of the partner, no price, not bookable, key used, amounts that do not add up, in that order, and otherwise it goes through |
| BookingEffects.ConfirmBooks | src/modules/booking/booking-lifecycle.service.ts:366-549 | What it leaves: in the answer, among the bookings, on the slot, in the ledger and in the record kept for a day stands one booking of the held slot, its gross the price, its commission and tax by the contract in force |
| BookingEffects.PolicyIs | src/modules/booking/booking-lifecycle.service.ts:965-1014 | The refund percent and the release are those of the rule with the largest threshold the whole minutes left reach, the earlier of equal ones, or else of the defaults; percents are rounded and between 0 and 100, and a release needs the cutoff |
| BookingEffects.CancelsWhen | src/modules/booking/booking-lifecycle.service.ts:566-606 | The exact answer to a cancellation under a new key: not the partner's booking, not confirmed, not allowed, in that order; slot, ledger and indexes never refuse it |
| BookingEffects.CancelRecords | src/modules/booking/booking-lifecycle.service.ts:589-721 | What it leaves: a cancellation with the percent and release of the rule that applies and that percent of the gross, the booking cancelled, its slot given back as recorded, and the answer kept for a day |
| BookingEffects.CancelPostsRefund | src/modules/booking/booking-lifecycle.service.ts:609-667 | It appends reversals of the booking's own rows, dated as it was made, each side of them worth the refund it records |
| BookingEffects.DirectBooks | src/modules/booking/owner-booking.service.ts:234-400 | An owner's booking is of no partner and for no money, on the slot placed for it, exactly when that placement commits |
| BookingEffects.DirectCancels | src/modules/booking/owner-booking.service.ts:420-597 | An owner cancels exactly a confirmed booking of the venue without a partner; its slot is removed and the cancellation recorded as asked |
| BookingEffects.BooksOfRun | src/modules/financial-close/financial-close.service.ts:173-1091 | The books of any run of the joint machine are those of some run of the close, so every theorem about the close holds in it |
| BookingEffects.SettledInPeriod | src/modules/ledger/ledger.repository.ts:66-100 | In every reachable state of the joint machine a settled row is dated in the period of its settlement |
| CloseEffects.TotalsAreOfAccounts | src/modules/financial-close/financial-close.service.ts:1417-1460 | The totals of any rows are those of the accounts: commission, tax and net as credited less debited, refund as reversed of the gross, gross as debited before it |
| CloseEffects.GeneratesWhen | src/modules/financial-close/financial-close.service.ts:173-284 | The exact answer of a generation: bad period, period taken, no unsettled row in it, contract, cycle, range, in that order, and otherwise it goes through |
| CloseEffects.GenerateTakesPeriod | src/modules/financial-close/financial-close.service.ts:173-341 | Exactly the unsettled rows of the partner and environment dated from the start to before the end of the period carry the settlement afterwards; it has their totals and cycle, falls due with the largest lag, and nothing else changes |
| CloseEffects.RunKeepsPeriods | src/modules/ledger/ledger.repository.ts:66-100 | In every reachable state a settled row is dated in the period of its settlement |
| CloseEffects.SubmitLeaves | src/modules/financial-close/financial-close.service.ts:343-350 | Exactly a draft is submitted; it then awaits the bank's report and nothing else changes |
| CloseEffects.ReconcileLeaves | src/modules/financial-close/financial-close.service.ts:352-459 | The exact answer to a bank report; the report is stored as given, matched exactly when it is the net, and a reference is never a duplicate |
| CloseEffects.ResolveLeaves | src/modules/financial-close/financial-close.service.ts:461-524 | Exactly a settlement held for a mismatch is resolved, on its own report and with the evidence and notes given |
| CloseEffects.CompleteLeaves | src/modules/financial-close/financial-close.service.ts:526-622 | Exactly a reconciled settlement is completed, at the time of the call; its report never stops it |
| CloseEffects.PaysWhen | src/modules/financial-close/financial-close.service.ts:654-800 | The exact answer to a payout under a new key: payout exists, no settlement, not completed, gate, no rows, range, net not positive, in that order, and otherwise it goes through |
| CloseEffects.ReplaysWhen | src/modules/financial-close/financial-close.service.ts:664-700 | A key seen before replays its own request and refuses any other |
| CloseEffects.PayoutTakesShare | src/modules/financial-close/financial-close.service.ts:756-850 | A new payout is of what its venue is credited less debited in the settlement, pending, and exactly the rows of the two carry it afterwards |
| CloseEffects.ResultLeaves | src/modules/financial-close/financial-close.service.ts:864-947 | The exact answer to a transfer result; a payout becomes paid with its bank reference or failed with its reason, and nothing else changes |
| CloseEffects.RefundLeaves | src/modules/ledger/ledger.service.ts:106-184 | Whatever a cancellation appends turns around rows of its booking, each at most once and by no more than it holds, in its scope and dated as it was made |
| CloseEffects.RunReversesOnce | src/modules/ledger/ledger.service.ts:125-143 | In every reachable state of the close no row of the ledger has been refunded twice |
| CloseEffects.AdjustsWhen | src/modules/financial-close/financial-close.service.ts:1012-1091 | An adjustment goes through if and only if its settlement is completed, it is dated between completion and now, its booking is of the partner and has rows there, and its lines are known, in range and balanced |
| CloseEffects.AdjustmentLeaves | src/modules/ledger/ledger.service.ts:186-227 | Each line is appended as it is, with its direction, amount and component, in the scope of its booking; nothing else changes |
| DeliveryEffects.DelayDoubles | src/shared/communications/communications.service.ts:437-444 | The wait doubles with every attempt after the first until it reaches the maximum |
| DeliveryEffects.AnswerLeaves | src/shared/communications/communications.service.ts:313-356 | A delivery is delivered exactly when accepted, retried exactly when the refusal allows it and attempts are left, at the wait after the answer, and given up otherwise |
| DeliveryEffects.PassLeaves | src/shared/communications/communications.service.ts:279-356 | A pass leaves what is over or not due as it was, and of every other delivery what its answer makes of it |
| DeliveryEffects.ClaimLeaves | src/shared/communications/communications.repository.ts:133-158 | An idle worker claims exactly the due or abandoned event of the earliest date, the smaller identifier first; the event is then locked to it for the lease, one claim more |
| DeliveryEffects.EnqueueLeaves | src/shared/communications/outbox.repository.ts:32-90 | A new event is due at once, for every endpoint, with no attempt made |
| DeliveryEffects.SaveLeaves | src/shared/communications/communications.service.ts:357-376 | A saved event is pending exactly while something is to be retried, due at the earliest of those dates, failed exactly when none is and something was given up, and otherwise published |
| DeliveryEffects.RetryLeaves | src/shared/communications/communications.repository.ts:453-486 | An administrator's retry puts back exactly the given-up deliveries of the endpoint, at once and with their attempts to go again |
| DeliveryEffects.FailedHasCause | src/shared/communications/communications.service.ts:279-376 | Over every run an event is stored as failed only if one of its endpoints was gone, refused for good or used up its attempts in some step |

## Left out

- Split.Scaled: an amount times its percentage above 2^53 (9 * 10^13 minor units at 100 percent) is split as if that product and its quotient were exact; the source rounds the product as well.
- LifecycleTheorems.BookingAccounts: the refund rows are the code's while amount times percentage is at most 2^53, as for `Split.Scaled`; the same holds for Traces.CancellationIsRefund and LifecycleTheorems.CancelSucceeds.
- Refunds.CalculateAmounts: price times rate above 2^53 is rounded as if the product were exact.
- Ledger.CancellationTotal: products above 2^53 count as exact, as for `Split.Scaled`; rows are listed in insertion order, which stands for `created_at` and `_id`; texts count as given after trimming.
- InventoryTheorems.SoldOnce: two fixed slots that overlap each other are the grid generator's matter; at least one of two colliding slots is open-time.
- Inventory.Commit: court status, booking modes, operating hours and increments are checks on foreign records and are not read; a price is an input.
- LifecycleTheorems.ReplayedWithinTtl: equal request hashes stand for equal requests; the TTL index deletes at or after the expiry.
- LifecycleInvariant.CancelDirectKeeps: what an owner's cancellation refunds of a recorded payment is an input; payments are not modelled.
- Books.Append: the currency of every row is one; invoices are not modelled.
- Books.InitiatePayout: the checks of venue, owner, KYC record and payout account are one input.
- OutboxProtocol.Possible: worker identifiers are distinct and a worker handles one event at a time; the dates that saving, retrying and enqueueing write are those of their commits.
- Outbox.ProcessDeliveries: endpoint checks, signing and transport are inputs; attempt histories, error texts and owner notifications are left out, as is the counter of `drain`.
- OutboxProtocol.NewEvent: the upsert that makes enqueueing idempotent and its limit of twenty endpoints are not modelled; any number of distinct endpoints is allowed.
- Contracts.NormalizeTerms: terms taken over from a venue's accepted agreement are not compared with the input; partner and venue status are not read.
- Treasury, payment-provider calls, inventory-sync connector events, the repair script, audit histories, archive writes, views, reports, HTTP routes, authentication and rate limiting: plumbing, provider calls or single comparisons.
- Isolation anomalies of the database other than those the steps of placements, confirmations and the reaper expose.
