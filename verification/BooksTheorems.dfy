/**
 What holds of the financial close after any run of transactions: when a settlement or
 a payout goes through, that no amount is lost or counted twice, and what never changes.
 */
module BooksTheorems {
  import opened Base
  import opened Money
  import opened LedgerTypes
  import opened Aggregates
  import opened Books
  import opened BooksInvariant

  // ---------------------------------------------------------------------------- runs

  datatype Command =
    | CPostBooking(snapshot: Snapshot, at: Time, correlation: string)
    | CPostCancellation(snapshot: Snapshot, percent: int, at: Time, correlation: string)
    | CGenerate(partner: Id, environment: Environment, from: Time, to: Time, contracts: map<Id, Terms>)
    | CSubmit(settlement: Id)
    | CReconcile(settlement: Id, reported: int, bankReference: string, evidence: string, notes: string)
    | CResolve(settlement: Id, evidence: string, notes: string)
    | CComplete(settlement: Id, now: Time)
    | CInitiatePayout(settlement: Id, venue: Id, account: Id, key: string, gate: Option<FinanceError>)
    | CRecordPayoutResult(payout: Id, paid: bool, bankReference: string, failureReason: string)
    | CRecordAdjustment(settlement: Id, booking: Option<Snapshot>, lines: seq<Line>, reason: string, evidence: string,
                        effectiveAt: Time, correlation: string, now: Time)

  function Execute(b: Books, c: Command): Result<Books, FinanceError> {
    match c
    case CPostBooking(s, at, correlation) => PostBooking(b, s, at, correlation)
    case CPostCancellation(s, percent, at, correlation) => PostCancellation(b, s, percent, at, correlation)
    case CGenerate(partner, environment, from, to, contracts) => Generate(b, partner, environment, from, to, contracts)
    case CSubmit(s) => Submit(b, s)
    case CReconcile(s, reported, bank, evidence, notes) => Reconcile(b, s, reported, bank, evidence, notes)
    case CResolve(s, evidence, notes) => Resolve(b, s, evidence, notes)
    case CComplete(s, now) => Complete(b, s, now)
    case CInitiatePayout(s, v, account, key, gate) => InitiatePayout(b, s, v, account, key, gate)
    case CRecordPayoutResult(p, paid, bank, failure) => RecordPayoutResult(b, p, paid, bank, failure)
    case CRecordAdjustment(s, booking, lines, reason, evidence, at, correlation, now) =>
      RecordAdjustment(b, s, booking, lines, reason, evidence, at, correlation, now)
  }

  /** A transaction that throws leaves nothing behind. */
  function Step(b: Books, c: Command): Books {
    match Execute(b, c)
    case Ok(after) => after
    case Err(_) => b
  }

  function Run(b: Books, commands: seq<Command>): Books {
    if commands == [] then b else Step(Run(b, commands[..|commands| - 1]), commands[|commands| - 1])
  }

  lemma StepKeeps(b: Books, c: Command)
    requires Inv(b)
    ensures Inv(Step(b, c))
  {
    if Execute(b, c).Ok? {
      match c
      case CPostBooking(s, at, correlation) => PostBookingKeeps(b, s, at, correlation);
      case CPostCancellation(s, percent, at, correlation) => PostCancellationKeeps(b, s, percent, at, correlation);
      case CGenerate(partner, environment, from, to, contracts) => GenerateKeeps(b, partner, environment, from, to, contracts);
      case CSubmit(s) => SubmitKeeps(b, s);
      case CReconcile(s, reported, bank, evidence, notes) => ReconcileKeeps(b, s, reported, bank, evidence, notes);
      case CResolve(s, evidence, notes) => ResolveKeeps(b, s, evidence, notes);
      case CComplete(s, now) => CompleteKeeps(b, s, now);
      case CInitiatePayout(s, v, account, key, gate) => InitiatePayoutKeeps(b, s, v, account, key, gate);
      case CRecordPayoutResult(p, paid, bank, failure) => RecordPayoutResultKeeps(b, p, paid, bank, failure);
      case CRecordAdjustment(s, booking, lines, reason, evidence, at, correlation, now) =>
        RecordAdjustmentKeeps(b, s, booking, lines, reason, evidence, at, correlation, now);
    }
  }

  /** Every run from empty books keeps the whole invariant. */
  lemma {:induction false} RunKeeps(commands: seq<Command>)
    ensures Inv(Run(EMPTY, commands))
  {
    if commands != [] {
      RunKeeps(commands[..|commands| - 1]);
      StepKeeps(Run(EMPTY, commands[..|commands| - 1]), commands[|commands| - 1]);
    }
  }

  // --------------------------------------------------- checks that never fire

  lemma {:induction false} ByIdsFinds(rows: seq<Row>, ids: set<Id>, k: nat)
    requires k < |rows| && rows[k].id in ids
    ensures rows[k] in ByIds(rows, ids)
  {
    if k < |rows| - 1 {
      ByIdsFinds(rows[..|rows| - 1], ids, k);
    }
  }

  /** Looking up the missing originals always finds them, in scope. */
  lemma ReferenceFound(rows: seq<Row>, entries: seq<Row>, r: Row)
    requires References(rows) && r in rows && r in entries
    ensures ReferenceValid(r, entries, ByIds(rows, MissingRefs(entries)))
  {
    var k :| 0 <= k < |rows| && rows[k] == r;
    if r.reverses.Some? && r.reverses.value !in Ids(entries) {
      assert L.ReversesOneOf(rows[k], rows);
      var m :| 0 <= m < |rows| && L.ReversalOf(r, rows[m]);
      assert r.reverses.value in MissingRefs(entries);
      ByIdsFinds(rows, MissingRefs(entries), m);
      var originals := ByIds(rows, MissingRefs(entries));
      var j :| 0 <= j < |originals| && originals[j] == rows[m];
      assert SameBookingScope(originals[j], r);
    }
  }

  lemma ReferencesFound(rows: seq<Row>, q: Query)
    requires References(rows)
    ensures ReferencesValid(Select(rows, q), ByIds(rows, MissingRefs(Select(rows, q))))
  {
    var entries := Select(rows, q);
    SelectMembers(rows, q);
    forall k | 0 <= k < |entries|
      ensures ReferenceValid(entries[k], entries, ByIds(rows, MissingRefs(entries)))
    {
      assert entries[k] in entries;
      ReferenceFound(rows, entries, entries[k]);
    }
  }

  lemma TotalsFine(b: Books, q: Query)
    requires Inv(b)
    ensures var entries := Select(Rows(b), q);
            var t := Aggregate(entries, ByIds(Rows(b), MissingRefs(entries)));
            t == Totalled(entries) && (TotalsError(t) == None <==> AllSafe(t))
            && (TotalsError(t) == None || TotalsError(t) == Some(SettlementAmountOverflow))
  {
    SelectionNetsOut(b.batches, q, ByIds(Rows(b), MissingRefs(Select(Rows(b), q))));
  }

  /** What an administrator can check before asking for a settlement. */
  predicate Settleable(b: Books, partner: Id, environment: Environment, from: Time, to: Time,
                       contracts: map<Id, Terms>) {
    var entries := Select(Rows(b), UnsettledIn(partner, environment, from, to));
    && from < to && !PeriodTaken(b.settlements, partner, environment, from, to) && entries != []
    && ContractsKnown(entries, contracts, partner) && OneCycle(entries, contracts) && AllSafe(Totalled(entries))
  }

  lemma BatchErrors(b: Books, q: Query, contracts: map<Id, Terms>, partner: Id)
    requires Inv(b)
    ensures var entries := Select(Rows(b), q);
            var error := BatchError(b, entries, contracts, partner);
            (error == None <==> entries != [] && ContractsKnown(entries, contracts, partner)
                                && OneCycle(entries, contracts) && AllSafe(Totalled(entries)))
            && error !in {Some(LedgerReversalReferenceInvalid), Some(LedgerAggregateImbalance), Some(LedgerAllocationConflict)}
  {
    ReferencesFound(Rows(b), q);
    TotalsFine(b, q);
  }

  /** The allocation takes exactly the entries that were read. */
  lemma GenerateTakesAll(b: Books, q: Query)
    requires Inv(b) && q.UnsettledIn?
    ensures TakenCount(ToSettlement(Ids(Select(Rows(b), q)), b.nextId), Rows(b)) == |Select(Rows(b), q)|
  {
    GenerateTakes(b, q, b.nextId);
    TakenIsSelected(ToSettlement(Ids(Select(Rows(b), q)), b.nextId), q, Rows(b));
  }

  lemma GenerateDecides(b: Books, partner: Id, environment: Environment, from: Time, to: Time,
                        contracts: map<Id, Terms>, entries: seq<Row>)
    requires entries == Select(Rows(b), UnsettledIn(partner, environment, from, to))
    requires TakenCount(ToSettlement(Ids(entries), b.nextId), Rows(b)) == |entries|
    ensures Generate(b, partner, environment, from, to, contracts).Ok?
       <==> from < to && !PeriodTaken(b.settlements, partner, environment, from, to) && BatchError(b, entries, contracts, partner) == None
    ensures Generate(b, partner, environment, from, to, contracts).Err? ==>
              Generate(b, partner, environment, from, to, contracts).error in {InvalidSettlementPeriod, SettlementAlreadyExists}
              || Some(Generate(b, partner, environment, from, to, contracts).error) == BatchError(b, entries, contracts, partner)
  {
  }

  /**
   `generate` goes through exactly when its request is sound: the reversal references,
   the imbalance check and the allocation count never stop it.
   */
  lemma GenerateSucceeds(b: Books, partner: Id, environment: Environment, from: Time, to: Time,
                         contracts: map<Id, Terms>)
    requires Inv(b)
    ensures Generate(b, partner, environment, from, to, contracts).Ok? <==> Settleable(b, partner, environment, from, to, contracts)
    ensures Generate(b, partner, environment, from, to, contracts).Err? ==>
              Generate(b, partner, environment, from, to, contracts).error
              !in {LedgerReversalReferenceInvalid, LedgerAggregateImbalance, LedgerAllocationConflict}
  {
    var q := UnsettledIn(partner, environment, from, to);
    BatchErrors(b, q, contracts, partner);
    GenerateTakesAll(b, q);
    GenerateDecides(b, partner, environment, from, to, contracts, Select(Rows(b), q));
  }

  lemma ScopeFine(b: Books, s: Id, v: Id)
    requires Inv(b) && s in b.settlements
    ensures var entries := Select(Rows(b), OfSettlementVenue(s, v));
            forall k :: 0 <= k < |entries| ==> entries[k].partner == b.settlements[s].partner && entries[k].environment == b.settlements[s].environment
  {
    var rows, entries := Rows(b), Select(Rows(b), OfSettlementVenue(s, v));
    SelectMembers(rows, OfSettlementVenue(s, v));
    forall k | 0 <= k < |entries|
      ensures entries[k].partner == b.settlements[s].partner && entries[k].environment == b.settlements[s].environment
    {
      assert entries[k] in entries;
      var m :| 0 <= m < |rows| && rows[m] == entries[k];
    }
  }

  lemma AllOfVenuePayable(b: Books, s: Id, v: Id)
    requires Inv(b) && !PayoutFor(b, s, v)
    ensures Select(Rows(b), PayableOf(s, v)) == Select(Rows(b), OfSettlementVenue(s, v))
  {
    forall k | 0 <= k < |Rows(b)|
      ensures Hits(PayableOf(s, v), Rows(b)[k]) == Hits(OfSettlementVenue(s, v), Rows(b)[k])
    {
      AllPayable(Rows(b), b.settlements, b.payouts, s, v, Rows(b)[k]);
    }
    SameSelection(Rows(b), PayableOf(s, v), OfSettlementVenue(s, v));
  }

  lemma {:induction false} SameSelection(rows: seq<Row>, p: Query, q: Query)
    requires forall k :: 0 <= k < |rows| ==> Hits(p, rows[k]) == Hits(q, rows[k])
    ensures Select(rows, p) == Select(rows, q)
  {
    if rows != [] {
      assert forall k :: 0 <= k < |rows| - 1 ==> rows[..|rows| - 1][k] == rows[k];
      SameSelection(rows[..|rows| - 1], p, q);
    }
  }

  /** What an administrator can check before asking for a payout of a venue. */
  predicate Payable(b: Books, s: Id, v: Id, key: string, gate: Option<FinanceError>) {
    var entries := Select(Rows(b), OfSettlementVenue(s, v));
    && key != "" && !PayoutFor(b, s, v)
    && s in b.settlements && b.settlements[s].status == Completed && gate == None
    && entries != [] && AllSafe(Totalled(entries)) && Totalled(entries).net > 0
  }

  lemma PayableErrors(b: Books, s: Id, v: Id)
    requires Inv(b) && s in b.settlements && !PayoutFor(b, s, v)
    ensures var entries, error := Select(Rows(b), OfSettlementVenue(s, v)), PayableError(b, s, v);
            (error == None <==> entries != [] && AllSafe(Totalled(entries)) && Totalled(entries).net > 0)
            && error !in {Some(PayoutLedgerScopeMismatch), Some(LedgerReversalReferenceInvalid),
                          Some(LedgerAggregateImbalance), Some(PayoutLedgerAllocationConflict)}
  {
    Eligible(b, s, v);
    AllOfVenuePayable(b, s, v);
    ScopeFine(b, s, v);
    ReferencesFound(Rows(b), PayableOf(s, v));
    TotalsFine(b, PayableOf(s, v));
  }

  lemma PayoutTakesAll(b: Books, s: Id, v: Id)
    requires Inv(b)
    ensures var eligible := Select(Select(Rows(b), OfSettlementVenue(s, v)), PayableOf(s, v));
            TakenCount(ToPayout(Ids(eligible), s, v, b.nextId), Rows(b)) == |eligible|
  {
    Eligible(b, s, v);
    PayoutTakes(b, s, v, b.nextId);
    TakenIsSelected(ToPayout(Ids(Select(Rows(b), PayableOf(s, v))), s, v, b.nextId), PayableOf(s, v), Rows(b));
  }

  lemma PayoutDecides(b: Books, s: Id, v: Id, account: Id, key: string, gate: Option<FinanceError>, eligible: seq<Row>)
    requires eligible == Select(Select(Rows(b), OfSettlementVenue(s, v)), PayableOf(s, v))
    requires TakenCount(ToPayout(Ids(eligible), s, v, b.nextId), Rows(b)) == |eligible|
    ensures NewPayout(b, s, v, account, key, gate).Ok?
       <==> key != "" && !PayoutFor(b, s, v) && s in b.settlements && b.settlements[s].status == Completed
            && gate == None && PayableError(b, s, v) == None
    ensures NewPayout(b, s, v, account, key, gate).Err? && gate == None ==>
              var error := NewPayout(b, s, v, account, key, gate).error;
              error in {RequestInvalid, PayoutAlreadyExists, SettlementNotFound, SettlementNotCompleted}
              || (s in b.settlements && !PayoutFor(b, s, v) && Some(error) == PayableError(b, s, v))
  {
  }

  /**
   A new payout goes through exactly when the venue's share of a completed settlement is
   positive and unpaid: scope, references, imbalance and allocation count never stop it.
   */
  lemma PayoutSucceeds(b: Books, s: Id, v: Id, account: Id, key: string, gate: Option<FinanceError>)
    requires Inv(b)
    ensures NewPayout(b, s, v, account, key, gate).Ok? <==> Payable(b, s, v, key, gate)
    ensures NewPayout(b, s, v, account, key, gate).Err? && gate == None ==>
              NewPayout(b, s, v, account, key, gate).error
              !in {PayoutLedgerScopeMismatch, LedgerReversalReferenceInvalid, LedgerAggregateImbalance, PayoutLedgerAllocationConflict}
  {
    if s in b.settlements && !PayoutFor(b, s, v) {
      PayableErrors(b, s, v);
    }
    PayoutTakesAll(b, s, v);
    PayoutDecides(b, s, v, account, key, gate, Select(Select(Rows(b), OfSettlementVenue(s, v)), PayableOf(s, v)));
  }

  // --------------------------------------------------------------- conservation

  predicate Distinct(ids: seq<Id>) {
    forall i, j :: 0 <= i < j < |ids| ==> ids[i] != ids[j]
  }

  function OfSettlements(ids: seq<Id>): (q: seq<Query>)
    ensures |q| == |ids|
  {
    seq(|ids|, k requires 0 <= k < |ids| => OfSettlement(ids[k]))
  }

  lemma HitCountSnoc(parts: seq<Query>, q: Query, r: Row)
    ensures HitCount(parts + [q], r) == HitCount(parts, r) + if Hits(q, r) then 1 else 0
  {
  }

  lemma SumSnoc(rows: seq<Row>, parts: seq<Query>, q: Query)
    ensures SumOf(rows, parts + [q]) == Plus(SumOf(rows, parts), Totalled(Select(rows, q)))
  {
  }

  lemma {:induction false} SettlementHits(ids: seq<Id>, r: Row)
    requires Distinct(ids)
    ensures HitCount(OfSettlements(ids), r) == if r.settlement.Some? && r.settlement.value in ids then 1 else 0
  {
    if ids != [] {
      var n := |ids| - 1;
      SettlementHits(ids[..n], r);
      assert OfSettlements(ids) == OfSettlements(ids[..n]) + [OfSettlement(ids[n])];
      HitCountSnoc(OfSettlements(ids[..n]), OfSettlement(ids[n]), r);
      assert ids == ids[..n] + [ids[n]];
    }
  }

  function StoredSum(settlements: map<Id, Settlement>, ids: seq<Id>): Totals
    requires forall k :: 0 <= k < |ids| ==> ids[k] in settlements
  {
    if ids == [] then ZERO
    else Plus(StoredSum(settlements, ids[..|ids| - 1]), settlements[ids[|ids| - 1]].totals)
  }

  lemma {:induction false} StoredSumIsSum(rows: seq<Row>, settlements: map<Id, Settlement>, ids: seq<Id>)
    requires StoredTotals(rows, settlements) && forall k :: 0 <= k < |ids| ==> ids[k] in settlements
    ensures SumOf(rows, OfSettlements(ids)) == StoredSum(settlements, ids)
  {
    if ids != [] {
      var n := |ids| - 1;
      StoredSumIsSum(rows, settlements, ids[..n]);
      assert OfSettlements(ids) == OfSettlements(ids[..n]) + [OfSettlement(ids[n])];
      SumSnoc(rows, OfSettlements(ids[..n]), OfSettlement(ids[n]));
    }
  }

  /** `ids` lists the partner's settlements in an environment, each once. */
  predicate SettlementsOf(b: Books, partner: Id, environment: Environment, ids: seq<Id>) {
    && Distinct(ids)
    && (forall k :: 0 <= k < |ids| ==> ids[k] in b.settlements && b.settlements[ids[k]].partner == partner
                                       && b.settlements[ids[k]].environment == environment)
    && (forall s :: s in b.settlements && b.settlements[s].partner == partner && b.settlements[s].environment == environment ==> s in ids)
  }

  lemma PartnerPartition(rows: seq<Row>, b: Books, partner: Id, environment: Environment, ids: seq<Id>)
    requires Allocated(rows, b.settlements, b.payouts) && SettlementsOf(b, partner, environment, ids)
    ensures Partition(rows, OfPartner(partner, environment), OfSettlements(ids) + [Unsettled(partner, environment)])
  {
    forall k | 0 <= k < |rows|
      ensures HitCount(OfSettlements(ids) + [Unsettled(partner, environment)], rows[k])
           == if Hits(OfPartner(partner, environment), rows[k]) then 1 else 0
    {
      SettlementHits(ids, rows[k]);
      HitCountSnoc(OfSettlements(ids), Unsettled(partner, environment), rows[k]);
    }
  }

  /**
   No entry is lost or settled twice, however the periods overlap: the stored totals of
   a partner's settlements plus its unsettled entries are the totals of its whole ledger.
   */
  lemma SettlementsConserve(b: Books, partner: Id, environment: Environment, ids: seq<Id>)
    requires Inv(b) && SettlementsOf(b, partner, environment, ids)
    ensures Plus(StoredSum(b.settlements, ids), Totalled(Select(Rows(b), Unsettled(partner, environment))))
         == Totalled(Select(Rows(b), OfPartner(partner, environment)))
  {
    PartnerPartition(Rows(b), b, partner, environment, ids);
    PartitionAddsUp(Rows(b), OfPartner(partner, environment), OfSettlements(ids) + [Unsettled(partner, environment)]);
    SumSnoc(Rows(b), OfSettlements(ids), Unsettled(partner, environment));
    StoredSumIsSum(Rows(b), b.settlements, ids);
  }

  function OfPayouts(ids: seq<Id>): (q: seq<Query>)
    ensures |q| == |ids|
  {
    seq(|ids|, k requires 0 <= k < |ids| => OfPayout(ids[k]))
  }

  function OfVenues(s: Id, venues: seq<Id>): (q: seq<Query>)
    ensures |q| == |venues|
  {
    seq(|venues|, k requires 0 <= k < |venues| => OfSettlementVenue(s, venues[k]))
  }

  lemma {:induction false} PayoutHits(ids: seq<Id>, r: Row)
    requires Distinct(ids)
    ensures HitCount(OfPayouts(ids), r) == if r.payout.Some? && r.payout.value in ids then 1 else 0
  {
    if ids != [] {
      var n := |ids| - 1;
      PayoutHits(ids[..n], r);
      assert OfPayouts(ids) == OfPayouts(ids[..n]) + [OfPayout(ids[n])];
      HitCountSnoc(OfPayouts(ids[..n]), OfPayout(ids[n]), r);
      assert ids == ids[..n] + [ids[n]];
    }
  }

  lemma {:induction false} VenueHits(s: Id, venues: seq<Id>, r: Row)
    requires Distinct(venues)
    ensures HitCount(OfVenues(s, venues), r) == if r.settlement == Some(s) && r.venue in venues then 1 else 0
  {
    if venues != [] {
      var n := |venues| - 1;
      VenueHits(s, venues[..n], r);
      assert OfVenues(s, venues) == OfVenues(s, venues[..n]) + [OfSettlementVenue(s, venues[n])];
      HitCountSnoc(OfVenues(s, venues[..n]), OfSettlementVenue(s, venues[n]), r);
      assert venues == venues[..n] + [venues[n]];
    }
  }

  lemma {:induction false} HitCountAppend(a: seq<Query>, b: seq<Query>, r: Row)
    ensures HitCount(a + b, r) == HitCount(a, r) + HitCount(b, r)
  {
    if b == [] {
      assert a + b == a;
    } else {
      var n := |b| - 1;
      assert (a + b)[..|a + b| - 1] == a + b[..n];
      HitCountAppend(a, b[..n], r);
    }
  }

  lemma {:induction false} SumAppend(rows: seq<Row>, a: seq<Query>, b: seq<Query>)
    ensures SumOf(rows, a + b) == Plus(SumOf(rows, a), SumOf(rows, b))
  {
    if b == [] {
      assert a + b == a;
    } else {
      var n := |b| - 1;
      assert (a + b)[..|a + b| - 1] == a + b[..n];
      SumAppend(rows, a, b[..n]);
    }
  }

  function PaidSum(payouts: map<Id, Payout>, ids: seq<Id>): int
    requires forall k :: 0 <= k < |ids| ==> ids[k] in payouts
  {
    if ids == [] then 0 else PaidSum(payouts, ids[..|ids| - 1]) + payouts[ids[|ids| - 1]].amount
  }

  lemma {:induction false} PaidSumIsSum(rows: seq<Row>, payouts: map<Id, Payout>, ids: seq<Id>)
    requires StoredPayouts(rows, payouts) && forall k :: 0 <= k < |ids| ==> ids[k] in payouts
    ensures SumOf(rows, OfPayouts(ids)).net == PaidSum(payouts, ids)
  {
    if ids != [] {
      var n := |ids| - 1;
      assert forall k :: 0 <= k < n ==> ids[..n][k] == ids[k];
      PaidSumIsSum(rows, payouts, ids[..n]);
      assert payouts[ids[n]].amount == Totalled(Select(rows, OfPayout(ids[n]))).net;
      assert OfPayouts(ids) == OfPayouts(ids[..n]) + [OfPayout(ids[n])];
      SumSnoc(rows, OfPayouts(ids[..n]), OfPayout(ids[n]));
    }
  }

  /** What the venues of a settlement would be paid, venue by venue. */
  function VenueNets(rows: seq<Row>, s: Id, venues: seq<Id>): int {
    if venues == [] then 0
    else VenueNets(rows, s, venues[..|venues| - 1])
         + Totalled(Select(rows, OfSettlementVenue(s, venues[|venues| - 1]))).net
  }

  lemma OfVenuesSnoc(s: Id, venues: seq<Id>)
    requires venues != []
    ensures OfVenues(s, venues) == OfVenues(s, venues[..|venues| - 1]) + [OfSettlementVenue(s, venues[|venues| - 1])]
  {
  }

  lemma {:induction false} VenueNetsIsSum(rows: seq<Row>, s: Id, venues: seq<Id>)
    ensures SumOf(rows, OfVenues(s, venues)).net == VenueNets(rows, s, venues)
  {
    if venues != [] {
      var n := |venues| - 1;
      VenueNetsIsSum(rows, s, venues[..n]);
      OfVenuesSnoc(s, venues);
      SumSnoc(rows, OfVenues(s, venues[..n]), OfSettlementVenue(s, venues[n]));
    }
  }

  /** `paid` lists the settlement's payouts and `unpaid` the venues its rows name that have none, each once. */
  predicate PaidAndUnpaid(b: Books, s: Id, paid: seq<Id>, unpaid: seq<Id>) {
    && Distinct(paid) && Distinct(unpaid)
    && (forall k :: 0 <= k < |paid| ==> paid[k] in b.payouts && b.payouts[paid[k]].settlement == s)
    && (forall p :: p in b.payouts && b.payouts[p].settlement == s ==> p in paid)
    && (forall k :: 0 <= k < |unpaid| ==> !PayoutFor(b, s, unpaid[k]))
    && (forall k :: 0 <= k < |Rows(b)| && Rows(b)[k].settlement == Some(s) && !PayoutFor(b, s, Rows(b)[k].venue) ==> Rows(b)[k].venue in unpaid)
  }

  lemma RowIsPaidOrNot(b: Books, s: Id, paid: seq<Id>, unpaid: seq<Id>, k: nat)
    requires Allocated(Rows(b), b.settlements, b.payouts) && PaidAndUnpaid(b, s, paid, unpaid) && k < |Rows(b)|
    ensures var r := Rows(b)[k];
            (if r.payout.Some? && r.payout.value in paid then 1 else 0)
            + (if r.settlement == Some(s) && r.venue in unpaid then 1 else 0)
            == if r.settlement == Some(s) then 1 else 0
  {
  }

  lemma VenuePartition(b: Books, s: Id, paid: seq<Id>, unpaid: seq<Id>)
    requires Allocated(Rows(b), b.settlements, b.payouts) && PaidAndUnpaid(b, s, paid, unpaid)
    ensures Partition(Rows(b), OfSettlement(s), OfPayouts(paid) + OfVenues(s, unpaid))
  {
    var rows := Rows(b);
    forall k | 0 <= k < |rows|
      ensures HitCount(OfPayouts(paid) + OfVenues(s, unpaid), rows[k]) == if Hits(OfSettlement(s), rows[k]) then 1 else 0
    {
      PayoutHits(paid, rows[k]);
      VenueHits(s, unpaid, rows[k]);
      HitCountAppend(OfPayouts(paid), OfVenues(s, unpaid), rows[k]);
      RowIsPaidOrNot(b, s, paid, unpaid, k);
    }
  }

  /** What a settlement has paid out plus what its unpaid venues are owed is its stored net. */
  lemma PayoutsConserve(b: Books, s: Id, paid: seq<Id>, unpaid: seq<Id>)
    requires Inv(b) && s in b.settlements && PaidAndUnpaid(b, s, paid, unpaid)
    ensures PaidSum(b.payouts, paid) + VenueNets(Rows(b), s, unpaid) == b.settlements[s].totals.net
  {
    VenuePartition(b, s, paid, unpaid);
    PartitionAddsUp(Rows(b), OfSettlement(s), OfPayouts(paid) + OfVenues(s, unpaid));
    SumAppend(Rows(b), OfPayouts(paid), OfVenues(s, unpaid));
    PaidSumIsSum(Rows(b), b.payouts, paid);
    VenueNetsIsSum(Rows(b), s, unpaid);
  }

  // ------------------------------------------------------------ what never changes

  function Rank(status: SettlementStatus): nat {
    match status
    case Draft => 0
    case PendingFunds => 1
    case Reconciling => 2
    case Reconciled => 3
    case Completed => 4
  }

  /** A row keeps everything but its allocations, and those once made stay. */
  predicate RowGrows(r: Row, s: Row) {
    && s == r.(settlement := s.settlement, payout := s.payout)
    && (r.settlement.Some? ==> s.settlement == r.settlement)
    && (r.payout.Some? ==> s.payout == r.payout)
  }

  predicate SettlementGrows(a: Settlement, b: Settlement) {
    && b == a.(status := b.status, completedAt := b.completedAt)
    && Rank(a.status) <= Rank(b.status)
    && (a.status == Completed ==> b == a)
  }

  /** A payout leaves PENDING at most once: any other status is final. */
  predicate PayoutGrows(a: Payout, b: Payout) {
    SameTransfer(a, b) && (a.status != Pending ==> b == a)
  }

  predicate RowsGrow(r: seq<Row>, s: seq<Row>) {
    |r| <= |s| && forall k :: 0 <= k < |r| ==> RowGrows(r[k], s[k])
  }

  predicate SettlementsGrow(a: map<Id, Settlement>, b: map<Id, Settlement>) {
    forall s :: s in a ==> s in b && SettlementGrows(a[s], b[s])
  }

  predicate PayoutsGrow(a: map<Id, Payout>, b: map<Id, Payout>) {
    forall p :: p in a ==> p in b && PayoutGrows(a[p], b[p])
  }

  predicate Grows(a: Books, b: Books) {
    RowsGrow(Rows(a), Rows(b)) && SettlementsGrow(a.settlements, b.settlements) && PayoutsGrow(a.payouts, b.payouts)
  }

  lemma PostingGrows(b: Books, posted: seq<Row>)
    ensures Grows(b, Append(b, posted))
  {
  }

  lemma PuttingGrows(a: Allocation, batches: seq<seq<Row>>)
    ensures RowsGrow(Flatten(batches), Flatten(PutBatches(a, batches)))
  {
    PutFlatten(a, batches);
  }

  lemma PostGrows(b: Books, c: Command)
    requires (c.CPostBooking? || c.CPostCancellation? || c.CRecordAdjustment?) && Execute(b, c).Ok?
    ensures Grows(b, Execute(b, c).value)
  {
    match c
    case CPostBooking(s, at, correlation) =>
      PostingGrows(b, L.BookingPosting(s, at, correlation, b.nextId).value);
    case CPostCancellation(s, percent, at, correlation) =>
      PostingGrows(b, L.CancellationPosting(Rows(b), s, percent, at, correlation, b.nextId).value);
    case CRecordAdjustment(s, booking, lines, reason, evidence, at, correlation, now) =>
      var posted := AdjustmentIs(b, s, booking, lines, reason, evidence, at, correlation, now);
      PostingGrows(b, posted);
  }

  lemma GenerateGrows(b: Books, partner: Id, environment: Environment, from: Time, to: Time, contracts: map<Id, Terms>)
    requires DocumentsOld(b.settlements, b.payouts, b.nextId)
    requires Generate(b, partner, environment, from, to, contracts).Ok?
    ensures Grows(b, Generate(b, partner, environment, from, to, contracts).value)
  {
    var st := GenerateIs(b, partner, environment, from, to, contracts);
    PuttingGrows(ToSettlement(Ids(Select(Rows(b), UnsettledIn(partner, environment, from, to))), b.nextId), b.batches);
  }

  lemma NewPayoutGrows(b: Books, s: Id, v: Id, account: Id, key: string, gate: Option<FinanceError>)
    requires DocumentsOld(b.settlements, b.payouts, b.nextId) && NewPayout(b, s, v, account, key, gate).Ok?
    ensures Grows(b, NewPayout(b, s, v, account, key, gate).value)
  {
    var payout := NewPayoutIs(b, s, v, account, key, gate);
    PuttingGrows(ToPayout(Ids(Select(Rows(b), PayableOf(s, v))), s, v, b.nextId), b.batches);
  }

  lemma InitiatePayoutGrows(b: Books, s: Id, v: Id, account: Id, key: string, gate: Option<FinanceError>)
    requires DocumentsOld(b.settlements, b.payouts, b.nextId) && InitiatePayout(b, s, v, account, key, gate).Ok?
    ensures Grows(b, InitiatePayout(b, s, v, account, key, gate).value)
  {
    if !(exists p :: p in b.payouts && b.payouts[p].key == key) {
      NewPayoutGrows(b, s, v, account, key, gate);
    }
  }

  lemma ReconcileGrows(b: Books, s: Id, reported: int, bankReference: string, evidence: string, notes: string)
    requires Reconcile(b, s, reported, bankReference, evidence, notes).Ok?
    ensures Grows(b, Reconcile(b, s, reported, bankReference, evidence, notes).value)
  {
  }

  lemma ResolveGrows(b: Books, s: Id, evidence: string, notes: string)
    requires Resolve(b, s, evidence, notes).Ok?
    ensures Grows(b, Resolve(b, s, evidence, notes).value)
  {
  }

  lemma CompleteGrows(b: Books, s: Id, now: Time)
    requires Complete(b, s, now).Ok?
    ensures Grows(b, Complete(b, s, now).value)
  {
  }

  lemma StepGrows(b: Books, c: Command)
    requires DocumentsOld(b.settlements, b.payouts, b.nextId) && Execute(b, c).Ok?
    ensures Grows(b, Execute(b, c).value)
  {
    match c
    case CPostBooking(s, at, correlation) => PostGrows(b, c);
    case CPostCancellation(s, percent, at, correlation) => PostGrows(b, c);
    case CGenerate(partner, environment, from, to, contracts) => GenerateGrows(b, partner, environment, from, to, contracts);
    case CSubmit(s) =>
    case CReconcile(s, reported, bank, evidence, notes) => ReconcileGrows(b, s, reported, bank, evidence, notes);
    case CResolve(s, evidence, notes) => ResolveGrows(b, s, evidence, notes);
    case CComplete(s, now) => CompleteGrows(b, s, now);
    case CInitiatePayout(s, v, account, key, gate) => InitiatePayoutGrows(b, s, v, account, key, gate);
    case CRecordPayoutResult(p, paid, bank, failure) =>
      var payout := ResultIs(b, p, paid, bank, failure);
    case CRecordAdjustment(s, booking, lines, reason, evidence, at, correlation, now) => PostGrows(b, c);
  }

  lemma GrowsTransitive(a: Books, b: Books, c: Books)
    requires Grows(a, b) && Grows(b, c)
    ensures Grows(a, c)
  {
  }

  lemma GrowsOn(b: Books, before: Books, c: Command)
    requires Inv(before) && Grows(b, before)
    ensures Inv(Step(before, c)) && Grows(b, Step(before, c))
  {
    StepKeeps(before, c);
    if Execute(before, c).Ok? {
      StepGrows(before, c);
      GrowsTransitive(b, before, Step(before, c));
    }
  }

  /**
   In every later state a settlement keeps its partner, period and totals and only moves
   forward, a payout that left PENDING never moves again, and no row leaves its settlement
   or payout.
   */
  lemma {:induction false} RunGrows(b: Books, commands: seq<Command>)
    requires Inv(b)
    ensures Inv(Run(b, commands)) && Grows(b, Run(b, commands))
  {
    if commands != [] {
      var before := Run(b, commands[..|commands| - 1]);
      RunGrows(b, commands[..|commands| - 1]);
      GrowsOn(b, before, commands[|commands| - 1]);
    }
  }

  /** A settlement's stored totals equal the totals of its rows in every later state, and never move. */
  lemma StoredTotalsLast(b: Books, commands: seq<Command>, s: Id)
    requires Inv(b) && s in b.settlements
    ensures var later := Run(b, commands);
            s in later.settlements && later.settlements[s].totals == b.settlements[s].totals
            && Totalled(Select(Rows(later), OfSettlement(s))) == b.settlements[s].totals
  {
    RunGrows(b, commands);
  }

  /** The settlement lifecycle, read off the invariant of any reachable state. */
  lemma SettlementLifecycle(commands: seq<Command>, s: Id)
    requires s in Run(EMPTY, commands).settlements
    ensures var b := Run(EMPTY, commands);
            var status, record := b.settlements[s].status, RecordOf(b.reconciliations, s);
            && (status == Reconciling <==> record.Some? && record.value.status == Mismatch)
            && (status == Reconciled || status == Completed <==> record.Some? && record.value.status != Mismatch)
            && (record.Some? ==> (record.value.status == Matched <==> record.value.reported == b.settlements[s].totals.net))
            && (forall p :: p in b.payouts && b.payouts[p].settlement == s ==> status == Completed)
  {
    RunKeeps(commands);
    var b := Run(EMPTY, commands);
    assert Standing(b.settlements[s], RecordOf(b.reconciliations, s));
  }
}
