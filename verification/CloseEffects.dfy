/**
 What each transaction of the financial close promises, said of the rows' and documents'
 own fields: which rows a settlement or a payout takes, what it is worth, and what every
 status change leaves.
 */
module CloseEffects {
  import opened Base
  import opened Money
  import opened LedgerTypes
  import opened Aggregates
  import opened Books
  import opened BooksInvariant
  import opened BooksTheorems
  import L = Ledger
  import Sp = Split

  // ------------------------------------------------------------ what totals are worth

  predicate OfComponent(r: Row, c: Component) {
    r.component == Some(c) || (r.component == None && r.originalComponent == Some(c))
  }

  /** Credits less debits of one component. */
  function Credited(rows: seq<Row>, c: Component): int {
    if rows == [] then 0
    else
      var r := rows[|rows| - 1];
      Credited(rows[..|rows| - 1], c) + if !OfComponent(r, c) then 0 else if r.direction == Credit then r.amount else -r.amount
  }

  /** What was given back of the gross. */
  function GivenBack(rows: seq<Row>): int {
    if rows == [] then 0
    else
      var r := rows[|rows| - 1];
      GivenBack(rows[..|rows| - 1]) + if r.entryType == ReversalEntry && OfComponent(r, Gross) then r.amount else 0
  }

  /** The totals are those of the accounts: commission, tax and net as credited, gross as debited before what was given back. */
  predicate TotalsOfAccounts(t: Totals, rows: seq<Row>) {
    && t.commission == Credited(rows, Commission) && t.tax == Credited(rows, Tax) && t.net == Credited(rows, VenueNet)
    && t.refund == GivenBack(rows) && t.gross == GivenBack(rows) - Credited(rows, Gross)
  }

  lemma RowOfAccounts(r: Row)
    requires Shaped(r)
    ensures var x := Contribution(r, OwnComponent(r));
            var signed := if r.direction == Credit then r.amount else -r.amount;
            && x.commission == (if OfComponent(r, Commission) then signed else 0)
            && x.tax == (if OfComponent(r, Tax) then signed else 0)
            && x.net == (if OfComponent(r, VenueNet) then signed else 0)
            && x.refund == (if r.entryType == ReversalEntry && OfComponent(r, Gross) then r.amount else 0)
            && x.gross - x.refund == -(if OfComponent(r, Gross) then signed else 0)
  {
  }

  lemma {:induction false} TotalsAreOfAccounts(rows: seq<Row>)
    requires forall k :: 0 <= k < |rows| ==> Shaped(rows[k])
    ensures TotalsOfAccounts(Totalled(rows), rows)
  {
    if rows != [] {
      TotalsAreOfAccounts(rows[..|rows| - 1]);
      RowOfAccounts(rows[|rows| - 1]);
    }
  }

  // ---------------------------------------------------------------------- settlements

  /** The rows a settlement of a period is for. */
  predicate InPeriod(r: Row, partner: Id, environment: Environment, from: Time, to: Time) {
    r.partner == partner && r.environment == environment && r.settlement == None && from <= r.effectiveAt && r.effectiveAt < to
  }

  /** In the order they were posted. */
  predicate Rises(rows: seq<Row>) {
    forall i, j :: 0 <= i < j < |rows| ==> rows[i].id < rows[j].id
  }

  /** `entries` are those of `rows` that lie in the period, in their order. */
  ghost predicate EntriesOf(entries: seq<Row>, rows: seq<Row>, partner: Id, environment: Environment, from: Time, to: Time) {
    (forall r :: r in entries <==> r in rows && InPeriod(r, partner, environment, from, to)) && Rises(entries)
  }

  lemma RisesSnoc(some: seq<Row>, rows: seq<Row>)
    requires rows != [] && Rises(rows) && Rises(some) && forall r :: r in some ==> r in rows[..|rows| - 1]
    ensures Rises(some + [rows[|rows| - 1]])
  {
    var init := rows[..|rows| - 1];
    forall i | 0 <= i < |some|
      ensures some[i].id < rows[|rows| - 1].id
    {
      assert some[i] in some;
      var m :| 0 <= m < |init| && init[m] == some[i];
    }
  }

  lemma {:induction false} SelectedRise(rows: seq<Row>, q: Query)
    requires Rises(rows)
    ensures Rises(Select(rows, q))
  {
    if rows != [] {
      var init := rows[..|rows| - 1];
      SelectedRise(init, q);
      SelectMembers(init, q);
      RisesSnoc(Select(init, q), rows);
    }
  }

  lemma EntriesAre(b: Books, partner: Id, environment: Environment, from: Time, to: Time)
    requires Inv(b)
    ensures EntriesOf(Select(Rows(b), UnsettledIn(partner, environment, from, to)), Rows(b), partner, environment, from, to)
  {
    SelectMembers(Rows(b), UnsettledIn(partner, environment, from, to));
    SelectedRise(Rows(b), UnsettledIn(partner, environment, from, to));
  }

  predicate Figure(n: int) {
    -9_007_199_254_740_991 <= n <= 9_007_199_254_740_991
  }

  predicate Figures(t: Totals) {
    Figure(t.gross) && Figure(t.commission) && Figure(t.tax) && Figure(t.refund) && Figure(t.net)
  }

  predicate SettlesPeriod(st: Settlement, partner: Id, environment: Environment, from: Time, to: Time) {
    st.partner == partner && st.environment == environment && st.periodStart == from && st.periodEnd == to
  }

  /** Every entry is under a contract of the partner. */
  predicate UnderContracts(entries: seq<Row>, contracts: map<Id, Terms>, partner: Id) {
    forall k :: 0 <= k < |entries| ==> entries[k].contract in contracts && contracts[entries[k].contract].partner == partner
  }

  predicate SameCycles(entries: seq<Row>, contracts: map<Id, Terms>)
    requires forall k :: 0 <= k < |entries| ==> entries[k].contract in contracts
  {
    forall i, j :: 0 <= i < j < |entries| ==> contracts[entries[i].contract].cycle == contracts[entries[j].contract].cycle
  }

  predicate HasSettlement(b: Books, partner: Id, environment: Environment, from: Time, to: Time) {
    exists s :: s in b.settlements && SettlesPeriod(b.settlements[s], partner, environment, from, to)
  }

  /** Why no settlement can be made of these entries. */
  function EntriesRefusal(entries: seq<Row>, contracts: map<Id, Terms>, partner: Id, t: Totals): Option<FinanceError> {
    if entries == [] then Some(NoUnsettledLedgerEntries)
    else if !UnderContracts(entries, contracts, partner) then Some(SettlementContractMismatch)
    else if !SameCycles(entries, contracts) then Some(SettlementCycleConflict)
    else if !Figures(t) then Some(SettlementAmountOverflow)
    else None
  }

  /** Why no settlement can be made of a period. */
  function GenerateRefusal(b: Books, partner: Id, environment: Environment, from: Time, to: Time, contracts: map<Id, Terms>,
                           entries: seq<Row>, t: Totals): Option<FinanceError> {
    if to <= from then Some(InvalidSettlementPeriod)
    else if HasSettlement(b, partner, environment, from, to) then Some(SettlementAlreadyExists)
    else EntriesRefusal(entries, contracts, partner, t)
  }

  /**
   A settlement is generated exactly for a period that has a length and no settlement yet,
   with entries, all of them under contracts of the partner with one cycle, and of totals
   the platform can count; otherwise the first of these that fails is the answer.
   */
  lemma GeneratesWhen(b: Books, partner: Id, environment: Environment, from: Time, to: Time, contracts: map<Id, Terms>)
    returns (entries: seq<Row>, t: Totals)
    requires Inv(b)
    ensures EntriesOf(entries, Rows(b), partner, environment, from, to) && TotalsOfAccounts(t, entries)
    ensures var refusal := GenerateRefusal(b, partner, environment, from, to, contracts, entries, t);
            if refusal.Some? then Generate(b, partner, environment, from, to, contracts) == Err(refusal.value)
            else Generate(b, partner, environment, from, to, contracts).Ok?
  {
    var q := UnsettledIn(partner, environment, from, to);
    entries := Select(Rows(b), q);
    t := Totalled(entries);
    EntriesAre(b, partner, environment, from, to);
    SelectedShaped(b, q);
    TotalsAreOfAccounts(entries);
    EntriesRefused(b, q, contracts, partner, entries, t);
    GenerateTakesAll(b, q);
    GenerateAnswers(b, partner, environment, from, to, contracts, entries, t);
  }

  lemma GenerateAnswers(b: Books, partner: Id, environment: Environment, from: Time, to: Time, contracts: map<Id, Terms>,
                        entries: seq<Row>, t: Totals)
    requires entries == Select(Rows(b), UnsettledIn(partner, environment, from, to))
    requires TakenCount(ToSettlement(Ids(entries), b.nextId), Rows(b)) == |entries|
    requires BatchError(b, entries, contracts, partner) == EntriesRefusal(entries, contracts, partner, t)
    ensures var refusal := GenerateRefusal(b, partner, environment, from, to, contracts, entries, t);
            if refusal.Some? then Generate(b, partner, environment, from, to, contracts) == Err(refusal.value)
            else Generate(b, partner, environment, from, to, contracts).Ok?
  {
    assert PeriodTaken(b.settlements, partner, environment, from, to) <==> HasSettlement(b, partner, environment, from, to);
  }

  lemma EntriesRefused(b: Books, q: Query, contracts: map<Id, Terms>, partner: Id, entries: seq<Row>, t: Totals)
    requires Inv(b) && entries == Select(Rows(b), q) && t == Totalled(entries)
    ensures BatchError(b, entries, contracts, partner) == EntriesRefusal(entries, contracts, partner, t)
  {
    ReferencesFound(Rows(b), q);
    TotalsFine(b, q);
    BatchAnswers(b, entries, contracts, partner, t);
  }

  lemma BatchAnswers(b: Books, entries: seq<Row>, contracts: map<Id, Terms>, partner: Id, t: Totals)
    requires ReferencesValid(entries, ByIds(Rows(b), MissingRefs(entries)))
    requires Aggregate(entries, ByIds(Rows(b), MissingRefs(entries))) == t && TotalsError(t) == if AllSafe(t) then None else Some(SettlementAmountOverflow)
    ensures BatchError(b, entries, contracts, partner) == EntriesRefusal(entries, contracts, partner, t)
  {
    if entries != [] && ContractsKnown(entries, contracts, partner) && OneCycle(entries, contracts) {
      assert SameCycles(entries, contracts);
    }
  }

  lemma SelectedShaped(b: Books, q: Query)
    requires Inv(b)
    ensures forall k :: 0 <= k < |Select(Rows(b), q)| ==> Shaped(Select(Rows(b), q)[k])
  {
    var entries := Select(Rows(b), q);
    FlattenShaped(b.batches);
    SelectMembers(Rows(b), q);
    forall k | 0 <= k < |entries|
      ensures Shaped(entries[k])
    {
      assert entries[k] in entries;
    }
  }

  /** What a generated settlement says of itself. */
  predicate SettledFor(st: Settlement, entries: seq<Row>, partner: Id, environment: Environment, from: Time, to: Time,
                       contracts: map<Id, Terms>)
    requires forall k :: 0 <= k < |entries| ==> entries[k].contract in contracts
  {
    && SettlesPeriod(st, partner, environment, from, to) && st.status == Draft && st.completedAt == None
    && TotalsOfAccounts(st.totals, entries)
    && (forall k :: 0 <= k < |entries| ==> contracts[entries[k].contract].cycle == st.cycle)
    && (forall k :: 0 <= k < |entries| ==> st.dueAt >= to + contracts[entries[k].contract].lagDays * 86_400_000)
    && (exists k :: 0 <= k < |entries| && st.dueAt == to + contracts[entries[k].contract].lagDays * 86_400_000)
  }

  /** Every unsettled row of the period carries the settlement afterwards; every other row is as it was. */
  predicate PeriodTakenBy(before: seq<Row>, after: seq<Row>, s: Id, partner: Id, environment: Environment, from: Time,
                          to: Time) {
    && |after| == |before|
    && forall k :: 0 <= k < |before| ==>
         after[k] == if InPeriod(before[k], partner, environment, from, to) then before[k].(settlement := Some(s)) else before[k]
  }

  lemma DraftedIs(b: Books, entries: seq<Row>, partner: Id, environment: Environment, from: Time, to: Time,
                  contracts: map<Id, Terms>)
    requires entries != [] && ContractsKnown(entries, contracts, partner) && OneCycle(entries, contracts)
    requires TotalsOfAccounts(Aggregate(entries, ByIds(Rows(b), MissingRefs(entries))), entries)
    ensures SettledFor(Drafted(b, entries, contracts, partner, environment, from, to), entries, partner, environment, from, to, contracts)
  {
    var m := MaxLagIsLargest(entries, contracts);
  }

  lemma RowsTaken(b: Books, partner: Id, environment: Environment, from: Time, to: Time)
    requires Inv(b)
    ensures var a := ToSettlement(Ids(Select(Rows(b), UnsettledIn(partner, environment, from, to))), b.nextId);
            PeriodTakenBy(Rows(b), Flatten(PutBatches(a, b.batches)), b.nextId, partner, environment, from, to)
  {
    var q := UnsettledIn(partner, environment, from, to);
    var a := ToSettlement(Ids(Select(Rows(b), q)), b.nextId);
    GenerateTakes(b, q, b.nextId);
    PutFlatten(a, b.batches);
    forall k | 0 <= k < |Rows(b)|
      ensures Put(a, Rows(b)[k])
           == if InPeriod(Rows(b)[k], partner, environment, from, to) then Rows(b)[k].(settlement := Some(b.nextId)) else Rows(b)[k]
    {
      assert Takes(a, Rows(b)[k]) <==> Hits(q, Rows(b)[k]);
    }
  }

  /** What `generate` writes, step by step. */
  lemma GenerateWrites(b: Books, partner: Id, environment: Environment, from: Time, to: Time, contracts: map<Id, Terms>,
                       entries: seq<Row>)
    requires Generate(b, partner, environment, from, to, contracts).Ok?
    requires entries == Select(Rows(b), UnsettledIn(partner, environment, from, to))
    ensures entries != [] && ContractsKnown(entries, contracts, partner) && OneCycle(entries, contracts)
    ensures Generate(b, partner, environment, from, to, contracts).value
         == b.(batches := PutBatches(ToSettlement(Ids(entries), b.nextId), b.batches), nextId := b.nextId + 1,
               settlements := b.settlements[b.nextId := Drafted(b, entries, contracts, partner, environment, from, to)])
  {
  }

  /**
   A generated settlement takes every unsettled row of the partner dated in its period, and
   no other: each of those carries it, every other row is as it was, and nothing else changes.
   */
  lemma GenerateTakesPeriod(b: Books, partner: Id, environment: Environment, from: Time, to: Time,
                            contracts: map<Id, Terms>) returns (entries: seq<Row>)
    requires Inv(b) && Generate(b, partner, environment, from, to, contracts).Ok?
    ensures EntriesOf(entries, Rows(b), partner, environment, from, to)
    ensures forall k :: 0 <= k < |entries| ==> entries[k].contract in contracts
    ensures var t, s := Generate(b, partner, environment, from, to, contracts).value, b.nextId;
            && s !in b.settlements && s in t.settlements && t.settlements == b.settlements[s := t.settlements[s]]
            && SettledFor(t.settlements[s], entries, partner, environment, from, to, contracts)
            && PeriodTakenBy(Rows(b), Rows(t), s, partner, environment, from, to)
            && t.reconciliations == b.reconciliations && t.payouts == b.payouts
  {
    var q := UnsettledIn(partner, environment, from, to);
    entries := Select(Rows(b), q);
    GenerateWrites(b, partner, environment, from, to, contracts, entries);
    EntriesAre(b, partner, environment, from, to);
    RowsTaken(b, partner, environment, from, to);
    DraftedIs(b, entries, partner, environment, from, to, contracts) by {
      SelectedShaped(b, q);
      TotalsAreOfAccounts(entries);
      SelectionNetsOut(b.batches, q, ByIds(Rows(b), MissingRefs(entries)));
    }
  }

  // ----------------------------------------------------------------- periods over runs

  predicate InItsPeriod(r: Row, settlements: map<Id, Settlement>) {
    match r.settlement
    case None => true
    case Some(s) => s in settlements && settlements[s].periodStart <= r.effectiveAt && r.effectiveAt < settlements[s].periodEnd
  }

  /** Every settled row is dated in the period of its settlement. */
  predicate PeriodsHold(b: Books) {
    forall k :: 0 <= k < |Rows(b)| ==> InItsPeriod(Rows(b)[k], b.settlements)
  }

  /** No row is settled that was not before. */
  predicate SettlesNothing(before: seq<Row>, after: seq<Row>) {
    && |before| <= |after|
    && (forall k :: 0 <= k < |before| ==> after[k].settlement == before[k].settlement)
    && (forall k :: |before| <= k < |after| ==> after[k].settlement == None)
  }

  lemma PutSettlesNothing(a: Allocation, batches: seq<seq<Row>>)
    requires a.ToPayout?
    ensures SettlesNothing(Flatten(batches), Flatten(PutBatches(a, batches)))
  {
    PutFlatten(a, batches);
  }

  lemma PostingSettlesNothing(b: Books, posted: seq<Row>)
    requires posted == [] || Posting(posted, b.nextId)
    ensures SettlesNothing(Rows(b), Rows(Append(b, posted)))
  {
    AppendRows(b, posted);
  }

  lemma PostSettlesNothing(b: Books, c: Command)
    requires Inv(b) && (c.CPostBooking? || c.CPostCancellation? || c.CRecordAdjustment?) && Execute(b, c).Ok?
    ensures SettlesNothing(Rows(b), Rows(Execute(b, c).value))
  {
    match c
    case CPostBooking(s, at, correlation) =>
      L.BookingAccepted(s, at, correlation, b.nextId);
      PostingSettlesNothing(b, L.BookingRows(s, at, correlation, b.nextId));
    case CPostCancellation(s, percent, at, correlation) =>
      var posted := L.CancellationPosting(Rows(b), s, percent, at, correlation, b.nextId).value;
      FlattenShaped(b.batches);
      if posted != [] {
        L.CancellationPosts(Rows(b), s, percent, at, correlation, b.nextId);
      }
      PostingSettlesNothing(b, posted);
    case CRecordAdjustment(s, booking, lines, reason, evidence, at, correlation, now) =>
      var posted := AdjustmentIs(b, s, booking, lines, reason, evidence, at, correlation, now);
      PostingSettlesNothing(b, posted);
  }

  lemma PayoutSettlesNothing(b: Books, s: Id, v: Id, account: Id, key: string, gate: Option<FinanceError>)
    requires InitiatePayout(b, s, v, account, key, gate).Ok?
    ensures SettlesNothing(Rows(b), Rows(InitiatePayout(b, s, v, account, key, gate).value))
  {
    if !(exists p :: p in b.payouts && b.payouts[p].key == key) {
      var payout := NewPayoutIs(b, s, v, account, key, gate);
      PutSettlesNothing(ToPayout(Ids(Select(Rows(b), PayableOf(s, v))), s, v, b.nextId), b.batches);
    }
  }

  lemma DocumentsOnly(b: Books, c: Command)
    requires c.CSubmit? || c.CReconcile? || c.CResolve? || c.CComplete? || c.CRecordPayoutResult?
    requires Execute(b, c).Ok?
    ensures Execute(b, c).value.batches == b.batches
  {
    match c
    case CSubmit(s) =>
    case CReconcile(s, reported, bank, evidence, notes) =>
    case CResolve(s, evidence, notes) =>
    case CComplete(s, now) =>
    case CRecordPayoutResult(p, paid, bank, failure) =>
  }

  lemma StepSettlesNothing(b: Books, c: Command)
    requires Inv(b) && Execute(b, c).Ok? && !c.CGenerate?
    ensures SettlesNothing(Rows(b), Rows(Execute(b, c).value))
  {
    match c
    case CPostBooking(s, at, correlation) => PostSettlesNothing(b, c);
    case CPostCancellation(s, percent, at, correlation) => PostSettlesNothing(b, c);
    case CRecordAdjustment(s, booking, lines, reason, evidence, at, correlation, now) => PostSettlesNothing(b, c);
    case CInitiatePayout(s, v, account, key, gate) => PayoutSettlesNothing(b, s, v, account, key, gate);
    case _ => DocumentsOnly(b, c);
  }

  lemma PeriodsKept(b: Books, t: Books)
    requires PeriodsHold(b) && Grows(b, t) && SettlesNothing(Rows(b), Rows(t))
    ensures PeriodsHold(t)
  {
    forall k | 0 <= k < |Rows(t)|
      ensures InItsPeriod(Rows(t)[k], t.settlements)
    {
      if k < |Rows(b)| {
        assert RowGrows(Rows(b)[k], Rows(t)[k]) && InItsPeriod(Rows(b)[k], b.settlements);
      }
    }
  }

  lemma PeriodsTaken(b: Books, t: Books, s: Id, partner: Id, environment: Environment, from: Time, to: Time)
    requires PeriodsHold(b) && s !in b.settlements && s in t.settlements && t.settlements == b.settlements[s := t.settlements[s]]
    requires PeriodTakenBy(Rows(b), Rows(t), s, partner, environment, from, to)
    requires t.settlements[s].periodStart == from && t.settlements[s].periodEnd == to
    ensures PeriodsHold(t)
  {
    forall k | 0 <= k < |Rows(t)|
      ensures InItsPeriod(Rows(t)[k], t.settlements)
    {
      assert InItsPeriod(Rows(b)[k], b.settlements);
    }
  }

  lemma StepKeepsPeriods(b: Books, c: Command)
    requires Inv(b) && PeriodsHold(b)
    ensures PeriodsHold(Step(b, c))
  {
    if Execute(b, c).Ok? {
      if c.CGenerate? {
        var entries := GenerateTakesPeriod(b, c.partner, c.environment, c.from, c.to, c.contracts);
        PeriodsTaken(b, Step(b, c), b.nextId, c.partner, c.environment, c.from, c.to);
      } else {
        StepGrows(b, c);
        StepSettlesNothing(b, c);
        PeriodsKept(b, Step(b, c));
      }
    }
  }

  /** In every reachable state a row of a settlement is dated in that settlement's period. */
  lemma {:induction false} RunKeepsPeriods(commands: seq<Command>)
    ensures PeriodsHold(Run(EMPTY, commands))
  {
    if commands != [] {
      var before := commands[..|commands| - 1];
      RunKeeps(before);
      RunKeepsPeriods(before);
      StepKeepsPeriods(Run(EMPTY, before), commands[|commands| - 1]);
    }
  }

  // -------------------------------------------------------------- settlement statuses

  /** Of all that is kept only the status and the completion date of `s`, and perhaps reports, changed. */
  predicate Moves(b: Books, t: Books, s: Id, status: SettlementStatus, completedAt: Option<Time>) {
    && s in b.settlements && t.settlements.Keys == b.settlements.Keys
    && (forall k :: k in b.settlements && k != s ==> t.settlements[k] == b.settlements[k])
    && t.batches == b.batches && t.payouts == b.payouts && t.nextId == b.nextId
    && var x, y := b.settlements[s], t.settlements[s];
       && y.status == status && y.completedAt == completedAt && y.partner == x.partner && y.environment == x.environment
       && y.periodStart == x.periodStart && y.periodEnd == x.periodEnd && y.cycle == x.cycle && y.dueAt == x.dueAt && y.totals == x.totals
  }

  /** A draft, and nothing else, is submitted, and then awaits the bank's report. */
  lemma SubmitLeaves(b: Books, s: Id)
    ensures match Submit(b, s)
            case Ok(t) =>
              s in b.settlements && b.settlements[s].status == Draft && Moves(b, t, s, PendingFunds, b.settlements[s].completedAt)
              && t.reconciliations == b.reconciliations
            case Err(e) => (s !in b.settlements || b.settlements[s].status != Draft) && e == SettlementNotDraft
  {
  }

  lemma NoRecordYet(records: seq<Reconciliation>, s: Id)
    requires RecordOf(records, s) == None
    ensures forall k :: 0 <= k < |records| ==> records[k].settlement != s
  {
  }

  /**
   The bank's report is taken exactly for a settlement that awaits it, in range, with a
   reference, and explained when it is not the settlement's net; the reference is never a
   duplicate. The settlement is then reconciled, or held until the difference is resolved.
   */
  lemma ReconcileLeaves(b: Books, s: Id, reported: int, bankReference: string, evidence: string, notes: string)
    requires Inv(b)
    ensures match Reconcile(b, s, reported, bankReference, evidence, notes)
            case Ok(t) =>
              && 0 <= reported && Figure(reported) && bankReference != "" && s in b.settlements && b.settlements[s].status == PendingFunds
              && var matched := reported == b.settlements[s].totals.net;
                 && (matched || notes != "") && Moves(b, t, s, if matched then Reconciled else Reconciling, None)
                 && |t.reconciliations| == |b.reconciliations| + 1 && t.reconciliations[..|b.reconciliations|] == b.reconciliations
                 && var r := t.reconciliations[|b.reconciliations|];
                    && r.settlement == s && r.reported == reported && r.bankReference == bankReference && r.evidence == evidence
                    && r.notes == notes && (r.status == Matched <==> matched) && (r.status == Mismatch <==> !matched)
            case Err(e) =>
              if reported < 0 || !Figure(reported) || bankReference == "" then e == RequestInvalid
              else if s !in b.settlements then e == SettlementNotFound
              else if b.settlements[s].status != PendingFunds then e == SettlementNotAwaitingFunds
              else e == ReconciliationNotesRequired && reported != b.settlements[s].totals.net && notes == ""
  {
    if s in b.settlements && b.settlements[s].status == PendingFunds {
      assert Standing(b.settlements[s], RecordOf(b.reconciliations, s));
      NoRecordYet(b.reconciliations, s);
    }
  }

  /** A difference is resolved exactly with evidence and notes, on the settlement's own report. */
  lemma ResolveLeaves(b: Books, s: Id, evidence: string, notes: string)
    requires Inv(b)
    ensures match Resolve(b, s, evidence, notes)
            case Ok(t) =>
              && notes != "" && evidence != "" && s in b.settlements && b.settlements[s].status == Reconciling
              && Moves(b, t, s, Reconciled, None) && |t.reconciliations| == |b.reconciliations|
              && (forall k :: 0 <= k < |b.reconciliations| ==>
                    t.reconciliations[k] == if b.reconciliations[k].settlement == s
                                            then b.reconciliations[k].(status := Resolved, evidence := evidence, notes := notes)
                                            else b.reconciliations[k])
            case Err(e) =>
              if notes == "" || evidence == "" then e == RequestInvalid
              else if s !in b.settlements then e == SettlementNotFound
              else e == StateConflict && b.settlements[s].status != Reconciling
  {
    if s in b.settlements && b.settlements[s].status == Reconciling {
      assert Standing(b.settlements[s], RecordOf(b.reconciliations, s));
    }
  }

  /** A reconciled settlement is completed at the time of the call. */
  lemma CompleteLeaves(b: Books, s: Id, now: Time)
    requires Inv(b)
    ensures match Complete(b, s, now)
            case Ok(t) =>
              s in b.settlements && b.settlements[s].status == Reconciled && Moves(b, t, s, Completed, Some(now))
              && t.reconciliations == b.reconciliations
            case Err(e) =>
              if s !in b.settlements then e == SettlementNotFound else e == StateConflict && b.settlements[s].status != Reconciled
  {
    if s in b.settlements && b.settlements[s].status == Reconciled {
      assert Standing(b.settlements[s], RecordOf(b.reconciliations, s));
    }
  }

  // -------------------------------------------------------------------------- payouts

  /** The rows of a venue in a settlement. */
  predicate OwedTo(r: Row, s: Id, v: Id) {
    r.settlement == Some(s) && r.venue == v
  }

  /** `entries` are those of `rows` a payout of the venue is for, in their order. */
  ghost predicate ShareOf(entries: seq<Row>, rows: seq<Row>, s: Id, v: Id) {
    (forall r :: r in entries <==> r in rows && OwedTo(r, s, v)) && Rises(entries)
  }

  lemma ShareIs(b: Books, s: Id, v: Id) returns (entries: seq<Row>)
    requires Inv(b)
    ensures entries == Select(Rows(b), OfSettlementVenue(s, v))
    ensures ShareOf(entries, Rows(b), s, v) && TotalsOfAccounts(Totalled(entries), entries)
  {
    var q := OfSettlementVenue(s, v);
    entries := Select(Rows(b), q);
    SelectMembers(Rows(b), q);
    SelectedRise(Rows(b), q);
    SelectedShaped(b, q);
    TotalsAreOfAccounts(entries);
  }

  predicate HasPayout(b: Books, s: Id, v: Id) {
    exists p :: p in b.payouts && b.payouts[p].settlement == s && b.payouts[p].venue == v
  }

  /** Why these rows of a venue cannot be paid. */
  function ShareRefusal(entries: seq<Row>, t: Totals): Option<FinanceError> {
    if entries == [] then Some(NoPayableLedgerEntries)
    else if !Figures(t) then Some(SettlementAmountOverflow)
    else if Credited(entries, VenueNet) <= 0 then Some(PayoutAmountNotPositive)
    else None
  }

  /** Why a venue cannot be paid its rows of a settlement. */
  function PayoutRefusal(b: Books, s: Id, v: Id, key: string, gate: Option<FinanceError>, entries: seq<Row>, t: Totals): Option<FinanceError> {
    if key == "" then Some(RequestInvalid)
    else if HasPayout(b, s, v) then Some(PayoutAlreadyExists)
    else if s !in b.settlements then Some(SettlementNotFound)
    else if b.settlements[s].status != Completed then Some(SettlementNotCompleted)
    else if gate.Some? then gate
    else ShareRefusal(entries, t)
  }

  lemma NewKey(b: Books, s: Id, v: Id, account: Id, key: string, gate: Option<FinanceError>)
    requires forall p :: p in b.payouts ==> b.payouts[p].key != key
    ensures InitiatePayout(b, s, v, account, key, gate) == NewPayout(b, s, v, account, key, gate)
  {
  }

  /**
   A venue is paid exactly once its settlement is completed, for rows that net out above
   zero, when it has no payout of it yet; otherwise the first of these that fails is the answer.
   */
  lemma PaysWhen(b: Books, s: Id, v: Id, account: Id, key: string, gate: Option<FinanceError>)
    returns (entries: seq<Row>, t: Totals)
    requires Inv(b) && forall p :: p in b.payouts ==> b.payouts[p].key != key
    ensures ShareOf(entries, Rows(b), s, v) && TotalsOfAccounts(t, entries)
    ensures var refusal := PayoutRefusal(b, s, v, key, gate, entries, t);
            if refusal.Some? then InitiatePayout(b, s, v, account, key, gate) == Err(refusal.value)
            else InitiatePayout(b, s, v, account, key, gate).Ok?
  {
    entries := ShareIs(b, s, v);
    t := Totalled(entries);
    if s in b.settlements && !PayoutFor(b, s, v) {
      ShareRefused(b, s, v, entries, t);
    }
    PayoutTakesAll(b, s, v);
    NewKey(b, s, v, account, key, gate);
    PayoutAnswers(b, s, v, account, key, gate, entries, t);
  }

  lemma PayoutAnswers(b: Books, s: Id, v: Id, account: Id, key: string, gate: Option<FinanceError>, entries: seq<Row>, t: Totals)
    requires var eligible := Select(Select(Rows(b), OfSettlementVenue(s, v)), PayableOf(s, v));
             TakenCount(ToPayout(Ids(eligible), s, v, b.nextId), Rows(b)) == |eligible|
    requires s in b.settlements && !PayoutFor(b, s, v) ==> PayableError(b, s, v) == ShareRefusal(entries, t)
    ensures var refusal := PayoutRefusal(b, s, v, key, gate, entries, t);
            if refusal.Some? then NewPayout(b, s, v, account, key, gate) == Err(refusal.value)
            else NewPayout(b, s, v, account, key, gate).Ok?
  {
    assert PayoutFor(b, s, v) <==> HasPayout(b, s, v);
  }

  lemma ShareRefused(b: Books, s: Id, v: Id, entries: seq<Row>, t: Totals)
    requires Inv(b) && s in b.settlements && !PayoutFor(b, s, v)
    requires entries == Select(Rows(b), OfSettlementVenue(s, v)) && t == Totalled(entries) && TotalsOfAccounts(t, entries)
    ensures PayableError(b, s, v) == ShareRefusal(entries, t)
  {
    Eligible(b, s, v);
    AllOfVenuePayable(b, s, v);
    ScopeFine(b, s, v);
    ReferencesFound(Rows(b), PayableOf(s, v));
    TotalsFine(b, PayableOf(s, v));
  }

  /** A key seen before replays its own request and refuses any other. */
  lemma ReplaysWhen(b: Books, p: Id, s: Id, v: Id, account: Id, gate: Option<FinanceError>)
    requires Inv(b) && p in b.payouts
    ensures InitiatePayout(b, s, v, account, b.payouts[p].key, gate)
         == if b.payouts[p].settlement == s && b.payouts[p].venue == v && b.payouts[p].account == account then Ok(b)
            else Err(PayoutIdempotencyKeyReused)
  {
  }

  /** Every row of the venue in the settlement carries the payout afterwards; every other row is as it was. */
  predicate PaidBy(before: seq<Row>, after: seq<Row>, p: Id, s: Id, v: Id) {
    && |after| == |before|
    && forall k :: 0 <= k < |before| ==> after[k] == if OwedTo(before[k], s, v) then before[k].(payout := Some(p)) else before[k]
  }

  lemma RowPaid(b: Books, s: Id, v: Id, a: Allocation, k: nat)
    requires Inv(b) && forall p :: p in b.payouts ==> b.payouts[p].settlement != s || b.payouts[p].venue != v
    requires a.ToPayout? && a.settlement == s && a.venue == v && TakesHits(a, PayableOf(s, v), Rows(b)) && k < |Rows(b)|
    ensures Put(a, Rows(b)[k]) == if OwedTo(Rows(b)[k], s, v) then Rows(b)[k].(payout := Some(a.payout)) else Rows(b)[k]
  {
    AllPayable(Rows(b), b.settlements, b.payouts, s, v, Rows(b)[k]);
    assert Takes(a, Rows(b)[k]) <==> Hits(PayableOf(s, v), Rows(b)[k]);
  }

  lemma RowsPaid(b: Books, s: Id, v: Id)
    requires Inv(b) && forall p :: p in b.payouts ==> b.payouts[p].settlement != s || b.payouts[p].venue != v
    ensures var a := ToPayout(Ids(Select(Rows(b), PayableOf(s, v))), s, v, b.nextId);
            PaidBy(Rows(b), Flatten(PutBatches(a, b.batches)), b.nextId, s, v)
  {
    var a := ToPayout(Ids(Select(Rows(b), PayableOf(s, v))), s, v, b.nextId);
    PayoutTakes(b, s, v, b.nextId);
    PutFlatten(a, b.batches);
    forall k | 0 <= k < |Rows(b)|
      ensures PutAll(a, Rows(b))[k] == if OwedTo(Rows(b)[k], s, v) then Rows(b)[k].(payout := Some(b.nextId)) else Rows(b)[k]
    {
      RowPaid(b, s, v, a, k);
    }
  }

  /** A new payout is of the venue's net in the settlement and takes all of its rows; nothing else changes. */
  lemma PayoutTakesShare(b: Books, s: Id, v: Id, account: Id, key: string,
                         gate: Option<FinanceError>) returns (entries: seq<Row>)
    requires Inv(b) && InitiatePayout(b, s, v, account, key, gate).Ok? && forall p :: p in b.payouts ==> b.payouts[p].key != key
    ensures ShareOf(entries, Rows(b), s, v)
    ensures s in b.settlements && b.nextId !in b.payouts
    ensures var t := InitiatePayout(b, s, v, account, key, gate).value;
            && t.payouts == b.payouts[b.nextId := Payout(s, v, account, b.settlements[s].environment, Credited(entries, VenueNet),
                                                         Pending, key, None, None)]
            && PaidBy(Rows(b), Rows(t), b.nextId, s, v)
            && t.settlements == b.settlements && t.reconciliations == b.reconciliations
  {
    NewKey(b, s, v, account, key, gate);
    entries := ShareIs(b, s, v);
    var payout := NewPayoutIs(b, s, v, account, key, gate);
    RowsPaid(b, s, v);
    AllOfVenuePayable(b, s, v);
    PayableNetsOut(b, s, v);
  }

  predicate ReferenceUsed(b: Books, environment: Environment, bankReference: string) {
    exists q :: q in b.payouts && b.payouts[q].environment == environment && b.payouts[q].bankReference == Some(bankReference)
  }

  /**
   A result is recorded exactly once per payout: paid with the bank's reference, new in its
   environment, or failed with a reason, and never with both.
   */
  lemma ResultLeaves(b: Books, p: Id, paid: bool, bankReference: string, failureReason: string)
    ensures match RecordPayoutResult(b, p, paid, bankReference, failureReason)
            case Ok(t) =>
              && (if paid then bankReference != "" && failureReason == "" else failureReason != "" && bankReference == "")
              && p in b.payouts && b.payouts[p].status == Pending
              && !(paid && ReferenceUsed(b, b.payouts[p].environment, bankReference))
              && p in t.payouts && t == b.(payouts := b.payouts[p := t.payouts[p]]) && SameTransfer(t.payouts[p], b.payouts[p])
              && (paid ==> t.payouts[p].status == Paid && t.payouts[p].bankReference == Some(bankReference) && t.payouts[p].failureReason == None)
              && (!paid ==> t.payouts[p].status == PayoutFailed && t.payouts[p].bankReference == None
                            && t.payouts[p].failureReason == Some(failureReason))
            case Err(e) =>
              if (paid && (bankReference == "" || failureReason != "")) || (!paid && (failureReason == "" || bankReference != "")) then e == RequestInvalid
              else if p !in b.payouts || b.payouts[p].status != Pending then e == PayoutNotPending
              else e == PayoutBankReferenceDuplicate && paid && ReferenceUsed(b, b.payouts[p].environment, bankReference)
  {
  }

  // ------------------------------------------------------------ refunds and adjustments

  /** A row of a refund: it turns part of a row of the booking, in the booking's scope, around. */
  predicate RefundsRow(r: Row, o: Row, s: Snapshot, at: Time, correlation: string) {
    && r.entryType == ReversalEntry && r.reverses == Some(o.id) && r.booking == s.booking && o.booking == s.booking
    && r.direction != o.direction && 0 < r.amount <= o.amount && r.originalComponent == o.component && r.component == None
    && r.partner == o.partner && r.venue == o.venue && r.contract == o.contract && r.environment == o.environment
    && s.partner == Some(o.partner) && s.venue == o.venue && s.contract == Some(o.contract) && s.environment == o.environment
    && r.effectiveAt == at && r.correlation == correlation && r.settlement == None && r.payout == None
    && o.reverses == None && !o.entryType.AdjustmentEntry?
  }

  predicate RefundsOneOf(r: Row, rows: seq<Row>, s: Snapshot, at: Time, correlation: string) {
    exists m :: 0 <= m < |rows| && RefundsRow(r, rows[m], s, at, correlation)
  }

  /** Reversals of rows of the booking, none of them twice. */
  predicate RefundOf(posted: seq<Row>, rows: seq<Row>, s: Snapshot, at: Time, correlation: string, first: Id) {
    && (forall k :: 0 <= k < |posted| ==> posted[k].id == first + k && RefundsOneOf(posted[k], rows, s, at, correlation))
    && forall i, j :: 0 <= i < j < |posted| ==> posted[i].reverses != posted[j].reverses
  }

  lemma RefundRowsAre(rows: seq<Row>, o: seq<Row>, s: Snapshot, amounts: seq<int>, at: Time, correlation: string, id: Id)
    requires |amounts| == |o| && forall k :: 0 <= k < |o| ==> o[k] in rows && L.IsOriginal(o[k], s.booking) && L.InScope(s, o[k])
    requires L.DistinctIds(o) && forall k :: 0 <= k < |o| ==> 0 <= amounts[k] <= o[k].amount
    ensures RefundOf(L.ReversalRows(o, amounts, at, correlation, id), rows, s, at, correlation, id)
  {
    var r, kept := L.ReversalRows(o, amounts, at, correlation, id), L.NonZero(amounts);
    forall k | 0 <= k < |r|
      ensures r[k].id == id + k && RefundsOneOf(r[k], rows, s, at, correlation)
    {
      var original := o[kept[k]];
      var m :| 0 <= m < |rows| && rows[m] == original;
      assert RefundsRow(r[k], rows[m], s, at, correlation);
    }
    L.ReversalsDistinct(o, amounts, at, correlation, id);
  }

  lemma {:induction false} OriginalsRise(rows: seq<Row>, booking: Id)
    requires Rises(rows)
    ensures Rises(L.Originals(rows, booking))
  {
    if rows != [] {
      var init := rows[..|rows| - 1];
      OriginalsRise(init, booking);
      OriginalsAreIn(init, booking);
      RisesSnoc(L.Originals(init, booking), rows);
    }
  }

  lemma OriginalsAreIn(rows: seq<Row>, booking: Id)
    ensures forall r :: r in L.Originals(rows, booking) ==> r in rows
  {
  }

  /** The shares taken of a booking's rows are at most what the rows hold. */
  lemma SharesFit(b: Books, booking: Id, percent: nat)
    requires Inv(b) && percent <= 100
    ensures var o := L.Originals(Rows(b), booking);
            L.DistinctIds(o) && forall k :: 0 <= k < |o| ==> 0 <= Sp.Scaled(L.Legs(o), percent)[k] <= o[k].amount
  {
    var o := L.Originals(Rows(b), booking);
    OriginalsRise(Rows(b), booking);
    FlattenShaped(b.batches);
    forall k | 0 <= k < |o|
      ensures 0 <= Sp.Scaled(L.Legs(o), percent)[k] <= o[k].amount
    {
      assert o[k] in Rows(b);
      Sp.ScaledBounds(L.Legs(o), percent, k);
    }
  }

  lemma ReversesOneOf(o: seq<Row>, amounts: seq<int>, at: Time, correlation: string, id: Id, j: nat) returns (k: nat)
    requires |amounts| == |o| && j < |L.ReversalRows(o, amounts, at, correlation, id)|
    ensures k < |o| && L.ReversalRows(o, amounts, at, correlation, id)[j].reverses == Some(o[k].id)
  {
    k := L.NonZero(amounts)[j];
  }

  lemma AllInScope(rows: seq<Row>, s: Snapshot, o: seq<Row>)
    requires L.OriginalsError(rows, s, o) == None
    ensures forall k :: 0 <= k < |o| ==> L.InScope(s, o[k])
  {
  }

  lemma NoneReversed(rows: seq<Row>, s: Snapshot, o: seq<Row>)
    requires L.OriginalsError(rows, s, o) == None
    ensures forall k :: 0 <= k < |o| ==> !L.IsReversed(rows, s.booking, o[k].id)
  {
  }

  /** What a cancellation appends turns around rows of its booking, each at most once, dated as it was made. */
  lemma RefundLeaves(b: Books, s: Snapshot, percent: int, at: Time, correlation: string) returns (posted: seq<Row>)
    requires Inv(b) && PostCancellation(b, s, percent, at, correlation).Ok?
    ensures var t := PostCancellation(b, s, percent, at, correlation).value;
            && Rows(t) == Rows(b) + posted && t.nextId == b.nextId + |posted|
            && t.settlements == b.settlements && t.reconciliations == b.reconciliations && t.payouts == b.payouts
    ensures RefundOf(posted, Rows(b), s, at, correlation, b.nextId)
  {
    posted := L.CancellationPosting(Rows(b), s, percent, at, correlation, b.nextId).value;
    AppendRows(b, posted);
    L.PostingIs(Rows(b), s, percent, at, correlation, b.nextId);
    if posted != [] {
      var o := L.Originals(Rows(b), s.booking);
      SharesFit(b, s.booking, percent);
      AllInScope(Rows(b), s, o);
      RefundRowsAre(Rows(b), o, s, Sp.Scaled(L.Legs(o), percent), at, correlation, b.nextId);
    }
  }

  function LineSum(lines: seq<Line>, d: Direction): int {
    if lines == [] then 0
    else
      var n := |lines| - 1;
      LineSum(lines[..n], d) + if lines[n].direction == d then lines[n].amount else 0
  }

  predicate LineInRange(l: Line) {
    0 <= l.amount && Figure(l.amount)
  }

  /** Lines that can be posted: known components, amounts the platform can count, both sides equal. */
  predicate LinesBalance(lines: seq<Line>) {
    && |lines| >= 2
    && (forall k :: 0 <= k < |lines| ==> LineInRange(lines[k]) && !lines[k].component.Unknown?)
    && LineSum(lines, Debit) == LineSum(lines, Credit) && Figure(LineSum(lines, Debit))
  }

  lemma {:induction false} SideOfLines(b: Snapshot, lines: seq<Line>, at: Time, correlation: string, id: Id, d: Direction)
    requires b.partner.Some? && b.contract.Some?
    ensures Side(L.AdjustmentRows(b, lines, at, correlation, id), d) == LineSum(lines, d)
  {
    if lines != [] {
      var n := |lines| - 1;
      SideOfLines(b, lines[..n], at, correlation, id, d);
      assert L.AdjustmentRows(b, lines, at, correlation, id)[..n] == L.AdjustmentRows(b, lines[..n], at, correlation, id);
    }
  }

  lemma RowsInRange(b: Snapshot, lines: seq<Line>, at: Time, correlation: string, id: Id)
    requires b.partner.Some? && b.contract.Some? && lines != []
    ensures var rows := L.AdjustmentRows(b, lines, at, correlation, id);
            (forall k :: 0 <= k < |rows| ==> 0 <= rows[k].amount <= MAX_SAFE && SameScope(rows[k], rows[0]))
            <==> forall k :: 0 <= k < |lines| ==> LineInRange(lines[k])
  {
    var rows := L.AdjustmentRows(b, lines, at, correlation, id);
    assert forall k :: 0 <= k < |lines| ==> rows[k].amount == lines[k].amount && SameScope(rows[k], rows[0]);
    if k :| 0 <= k < |lines| && !LineInRange(lines[k]) {
      assert rows[k].amount == lines[k].amount;
    }
  }

  lemma LinesAccepted(b: Snapshot, lines: seq<Line>, at: Time, correlation: string, id: Id)
    requires b.partner.Some? && b.contract.Some? && lines != []
    ensures L.JournalError(L.AdjustmentRows(b, lines, at, correlation, id)) == None
       <==> |lines| >= 2 && (forall k :: 0 <= k < |lines| ==> LineInRange(lines[k]))
            && LineSum(lines, Debit) == LineSum(lines, Credit) && Figure(LineSum(lines, Debit))
  {
    var rows := L.AdjustmentRows(b, lines, at, correlation, id);
    SideOfLines(b, lines, at, correlation, id, Debit);
    SideOfLines(b, lines, at, correlation, id, Credit);
    BalanceIsDifference(rows);
    L.JournalAccepted(rows);
    RowsInRange(b, lines, at, correlation, id);
    if forall k :: 0 <= k < |lines| ==> LineInRange(lines[k]) {
      L.SideNonNegative(rows, Debit);
    }
  }

  lemma AdjustmentPostsWhen(b: Snapshot, lines: seq<Line>, reason: string, evidence: string, at: Time, correlation: string, id: Id)
    ensures L.AdjustmentPosting(b, lines, reason, evidence, at, correlation, id).Ok?
       <==> reason != "" && evidence != "" && correlation != "" && b.partner.Some? && b.contract.Some? && LinesBalance(lines)
  {
    if b.partner.Some? && b.contract.Some? && lines != [] {
      LinesAccepted(b, lines, at, correlation, id);
    }
  }

  /** An adjustment line as it is posted. */
  predicate AdjustsAs(r: Row, line: Line, b: Snapshot, at: Time, correlation: string) {
    && r.entryType == AdjustmentEntry && r.direction == line.direction && r.amount == line.amount && r.component == Some(line.component)
    && r.originalComponent == None && r.reverses == None && r.settlement == None && r.payout == None
    && r.booking == b.booking && Some(r.partner) == b.partner && r.venue == b.venue && Some(r.contract) == b.contract
    && r.environment == b.environment && r.effectiveAt == at && r.correlation == correlation
  }

  predicate HasRowsOf(b: Books, s: Id, booking: Id) {
    exists k :: 0 <= k < |Rows(b)| && Rows(b)[k].booking == booking && Rows(b)[k].settlement == Some(s)
  }

  predicate InScopeOf(b: Books, s: Id, booking: Id)
    requires s in b.settlements
  {
    exists k :: 0 <= k < |Rows(b)| && Rows(b)[k].booking == booking && Rows(b)[k].settlement == Some(s)
                && Rows(b)[k].partner == b.settlements[s].partner && Rows(b)[k].environment == b.settlements[s].environment
  }

  lemma InSettlement(b: Books, s: Id, booking: Id)
    requires Inv(b) && s in b.settlements
    ensures HasRowsOf(b, s, booking) <==> InScopeOf(b, s, booking)
  {
    if HasRowsOf(b, s, booking) {
      var k :| 0 <= k < |Rows(b)| && Rows(b)[k].booking == booking && Rows(b)[k].settlement == Some(s);
      assert Rows(b)[k].settlement.Some?;
    }
  }

  lemma AdjustmentDecides(b: Books, s: Id, bk: Snapshot, lines: seq<Line>, reason: string, evidence: string,
                          effectiveAt: Time, correlation: string, now: Time)
    requires s in b.settlements && (b.settlements[s].completedAt.Some? <==> b.settlements[s].status == Completed)
    ensures RecordAdjustment(b, s, Some(bk), lines, reason, evidence, effectiveAt, correlation, now).Ok?
       <==> b.settlements[s].completedAt.Some? && b.settlements[s].completedAt.value <= effectiveAt && effectiveAt <= now
            && bk.partner == Some(b.settlements[s].partner) && bk.environment == b.settlements[s].environment
            && InScopeOf(b, s, bk.booking)
            && L.AdjustmentPosting(bk, lines, reason, evidence, effectiveAt, correlation, b.nextId).Ok?
  {
  }

  /** A completed settlement is adjusted exactly by balanced lines on a booking it has rows of, dated since its completion. */
  lemma AdjustsWhen(b: Books, s: Id, booking: Option<Snapshot>, lines: seq<Line>, reason: string, evidence: string,
                    effectiveAt: Time, correlation: string, now: Time)
    requires Inv(b)
    ensures RecordAdjustment(b, s, booking, lines, reason, evidence, effectiveAt, correlation, now).Ok?
       <==> s in b.settlements && b.settlements[s].completedAt.Some?
            && b.settlements[s].completedAt.value <= effectiveAt && effectiveAt <= now
            && booking.Some? && booking.value.partner == Some(b.settlements[s].partner)
            && booking.value.environment == b.settlements[s].environment && booking.value.contract.Some?
            && HasRowsOf(b, s, booking.value.booking)
            && reason != "" && evidence != "" && correlation != "" && LinesBalance(lines)
  {
    if s in b.settlements && booking.Some? {
      assert Standing(b.settlements[s], RecordOf(b.reconciliations, s));
      AdjustmentDecides(b, s, booking.value, lines, reason, evidence, effectiveAt, correlation, now);
      InSettlement(b, s, booking.value.booking);
      AdjustmentPostsWhen(booking.value, lines, reason, evidence, effectiveAt, correlation, b.nextId);
    }
  }

  /** The lines of an adjustment are appended as they are; nothing else changes. */
  lemma AdjustmentLeaves(b: Books, s: Id, booking: Snapshot, lines: seq<Line>, reason: string, evidence: string,
                         effectiveAt: Time, correlation: string, now: Time) returns (posted: seq<Row>)
    requires RecordAdjustment(b, s, Some(booking), lines, reason, evidence, effectiveAt, correlation, now).Ok?
    ensures var t := RecordAdjustment(b, s, Some(booking), lines, reason, evidence, effectiveAt, correlation, now).value;
            && Rows(t) == Rows(b) + posted && |posted| == |lines| && t.nextId == b.nextId + |lines|
            && t.settlements == b.settlements && t.reconciliations == b.reconciliations && t.payouts == b.payouts
    ensures forall k :: 0 <= k < |posted| ==> posted[k].id == b.nextId + k && AdjustsAs(posted[k], lines[k], booking, effectiveAt, correlation)
  {
    posted := L.AdjustmentPosting(booking, lines, reason, evidence, effectiveAt, correlation, b.nextId).value;
    AppendRows(b, posted);
  }

  // ------------------------------------------------------------- refunds over every run

  /** No row is turned around twice. */
  predicate ReversedOnce(rows: seq<Row>) {
    forall i, j :: 0 <= i < j < |rows| && rows[i].reverses.Some? ==> rows[i].reverses != rows[j].reverses
  }

  lemma PutReversesNothing(a: Allocation, batches: seq<seq<Row>>)
    requires ReversedOnce(Flatten(batches))
    ensures ReversedOnce(Flatten(PutBatches(a, batches)))
  {
    PutFlatten(a, batches);
  }

  /** A reversal of a booking's row is a row of that booking. */
  lemma ReversedInBooking(b: Books, o: Row, booking: Id, k: nat)
    requires Inv(b) && o in Rows(b) && L.IsOriginal(o, booking) && k < |Rows(b)| && Rows(b)[k].reverses == Some(o.id)
    ensures L.IsReversed(Rows(b), booking, o.id)
  {
    var rows := Rows(b);
    assert L.ReversesOneOf(rows[k], rows);
    var m :| 0 <= m < |rows| && L.ReversalOf(rows[k], rows[m]);
    var n :| 0 <= n < |rows| && rows[n] == o;
    assert m == n;
  }

  lemma CancellationReversesOnce(b: Books, s: Snapshot, percent: int, at: Time, correlation: string)
    requires Inv(b) && ReversedOnce(Rows(b)) && PostCancellation(b, s, percent, at, correlation).Ok?
    ensures ReversedOnce(Rows(PostCancellation(b, s, percent, at, correlation).value))
  {
    var rows := Rows(b);
    var posted := RefundLeaves(b, s, percent, at, correlation);
    forall k, j | 0 <= k < |rows| && 0 <= j < |posted|
      ensures rows[k].reverses != posted[j].reverses
    {
      var o := RefundsUnreversed(b, s, percent, at, correlation, j, posted);
      if rows[k].reverses == Some(o.id) {
        ReversedInBooking(b, o, s.booking, k);
      }
    }
  }

  /** Each appended reversal is of a row the transaction found not reversed yet. */
  lemma ReversesUnreversed(rows: seq<Row>, s: Snapshot, percent: int, at: Time, correlation: string, id: Id,
                           j: nat) returns (o: Row)
    requires L.CancellationPosting(rows, s, percent, at, correlation, id).Ok?
    requires j < |L.CancellationPosting(rows, s, percent, at, correlation, id).value|
    ensures o in rows && L.IsOriginal(o, s.booking) && !L.IsReversed(rows, s.booking, o.id)
    ensures L.CancellationPosting(rows, s, percent, at, correlation, id).value[j].reverses == Some(o.id)
  {
    L.PostingIs(rows, s, percent, at, correlation, id);
    var originals := L.Originals(rows, s.booking);
    var k := ReversesOneOf(originals, Sp.Scaled(L.Legs(originals), percent), at, correlation, id, j);
    NoneReversed(rows, s, originals);
    o := originals[k];
  }

  lemma RefundsUnreversed(b: Books, s: Snapshot, percent: int, at: Time, correlation: string, j: nat,
                          posted: seq<Row>) returns (o: Row)
    requires PostCancellation(b, s, percent, at, correlation).Ok?
    requires Rows(PostCancellation(b, s, percent, at, correlation).value) == Rows(b) + posted && j < |posted|
    ensures o in Rows(b) && L.IsOriginal(o, s.booking) && !L.IsReversed(Rows(b), s.booking, o.id) && posted[j].reverses == Some(o.id)
  {
    var rows := L.CancellationPosting(Rows(b), s, percent, at, correlation, b.nextId).value;
    AppendRows(b, rows);
    assert posted == (Rows(b) + posted)[|Rows(b)|..] == rows;
    o := ReversesUnreversed(Rows(b), s, percent, at, correlation, b.nextId, j);
  }

  lemma AppendReversesNothing(b: Books, posted: seq<Row>)
    requires ReversedOnce(Rows(b)) && forall k :: 0 <= k < |posted| ==> posted[k].reverses == None
    ensures ReversedOnce(Rows(Append(b, posted)))
  {
    AppendRows(b, posted);
  }

  lemma PayoutReversesNothing(b: Books, s: Id, v: Id, account: Id, key: string, gate: Option<FinanceError>)
    requires ReversedOnce(Rows(b)) && InitiatePayout(b, s, v, account, key, gate).Ok?
    ensures ReversedOnce(Rows(InitiatePayout(b, s, v, account, key, gate).value))
  {
    if !(exists p :: p in b.payouts && b.payouts[p].key == key) {
      var payout := NewPayoutIs(b, s, v, account, key, gate);
      PutReversesNothing(ToPayout(Ids(Select(Rows(b), PayableOf(s, v))), s, v, b.nextId), b.batches);
    }
  }

  lemma StepReversesOnce(b: Books, c: Command)
    requires Inv(b) && ReversedOnce(Rows(b)) && Execute(b, c).Ok?
    ensures ReversedOnce(Rows(Execute(b, c).value))
  {
    match c
    case CPostBooking(s, at, correlation) =>
      L.BookingAccepted(s, at, correlation, b.nextId);
      AppendReversesNothing(b, L.BookingRows(s, at, correlation, b.nextId));
    case CPostCancellation(s, percent, at, correlation) => CancellationReversesOnce(b, s, percent, at, correlation);
    case CGenerate(partner, environment, from, to, contracts) =>
      var st := GenerateIs(b, partner, environment, from, to, contracts);
      PutReversesNothing(ToSettlement(Ids(Select(Rows(b), UnsettledIn(partner, environment, from, to))), b.nextId), b.batches);
    case CRecordAdjustment(s, booking, lines, reason, evidence, at, correlation, now) =>
      var posted := AdjustmentIs(b, s, booking, lines, reason, evidence, at, correlation, now);
      AppendReversesNothing(b, posted);
    case CInitiatePayout(s, v, account, key, gate) => PayoutReversesNothing(b, s, v, account, key, gate);
    case _ => DocumentsOnly(b, c);
  }

  /** In every reachable state no row of the ledger has been refunded twice. */
  lemma {:induction false} RunReversesOnce(commands: seq<Command>)
    ensures ReversedOnce(Rows(Run(EMPTY, commands)))
  {
    if commands != [] {
      var before := Run(EMPTY, commands[..|commands| - 1]);
      RunKeeps(commands[..|commands| - 1]);
      RunReversesOnce(commands[..|commands| - 1]);
      if Execute(before, commands[|commands| - 1]).Ok? {
        StepReversesOnce(before, commands[|commands| - 1]);
      }
    }
  }
}
