/**
 Settlement totals: `aggregate` and its imbalance check, the queries that pick rows
 out of the ledger, and the two facts everything financial rests on: totals add up over
 any partition of the rows, and a selection of whole journals is never out of balance.
 */
module Aggregates {
  import opened Base
  import opened Money
  import opened LedgerTypes

  datatype Totals = Totals(gross: int, commission: int, tax: int, refund: int, net: int)

  const ZERO := Totals(0, 0, 0, 0, 0)

  function Plus(a: Totals, b: Totals): Totals {
    Totals(a.gross + b.gross, a.commission + b.commission, a.tax + b.tax, a.refund + b.refund, a.net + b.net)
  }

  // ------------------------------------------------------------------- aggregate

  /** The component a row's own metadata names. */
  function OwnComponent(r: Row): Option<Component> {
    if r.component.Some? then r.component else r.originalComponent
  }

  /** `componentOf`: the row's own component, or else the component of the row it reverses. */
  function ComponentOf(r: Row, originals: map<Id, Row>): Option<Component> {
    if OwnComponent(r).Some? then OwnComponent(r)
    else if r.reverses.Some? && r.reverses.value in originals then originals[r.reverses.value].component
    else None
  }

  function OriginalsById(rows: seq<Row>): map<Id, Row> {
    if rows == [] then map[]
    else
      var last := rows[|rows| - 1];
      var rest := OriginalsById(rows[..|rows| - 1]);
      if last.reverses == None then rest[last.id := last] else rest
  }

  /** What one row adds to the five totals. */
  function Contribution(r: Row, c: Option<Component>): Totals {
    var signed := Signed(r);
    match c
    case Some(Gross) =>
      (match r.entryType
       case ReversalEntry => ZERO.(refund := r.amount)
       case AdjustmentEntry => ZERO.(gross := -signed)
       case _ => ZERO.(gross := r.amount))
    case Some(Commission) =>
      ZERO.(commission := if r.entryType.ReversalEntry? || r.entryType.AdjustmentEntry? then signed else r.amount)
    case Some(Tax) =>
      ZERO.(tax := if r.entryType.ReversalEntry? || r.entryType.AdjustmentEntry? then signed else r.amount)
    case Some(VenueNet) =>
      ZERO.(net := if r.entryType.ReversalEntry? || r.entryType.AdjustmentEntry? then signed else r.amount)
    case _ => ZERO
  }

  function AggregateWith(entries: seq<Row>, originals: map<Id, Row>): Totals {
    if entries == [] then ZERO
    else
      var last := entries[|entries| - 1];
      Plus(AggregateWith(entries[..|entries| - 1], originals), Contribution(last, ComponentOf(last, originals)))
  }

  function Aggregate(entries: seq<Row>, hydrated: seq<Row>): Totals {
    AggregateWith(entries, OriginalsById(entries + hydrated))
  }

  lemma AggregateStep(entries: seq<Row>, k: nat, originals: map<Id, Row>)
    requires k < |entries|
    ensures AggregateWith(entries[..k + 1], originals)
         == Plus(AggregateWith(entries[..k], originals), Contribution(entries[k], ComponentOf(entries[k], originals)))
  {
    assert entries[..k + 1][..k] == entries[..k];
  }

  /** The body of the loop: which accumulator an entry moves, and by how much. */
  method Accumulate(entry: Row, component: Option<Component>, before: Totals) returns (after: Totals)
    ensures after == Plus(before, Contribution(entry, component))
  {
    var Totals(gross, commission, tax, refund, net) := before;
    var signed := if entry.direction == Credit then entry.amount else -entry.amount;
    if entry.entryType == ReversalEntry {
      if component == Some(Gross) { refund := refund + entry.amount; }
      if component == Some(Commission) { commission := commission + signed; }
      if component == Some(Tax) { tax := tax + signed; }
      if component == Some(VenueNet) { net := net + signed; }
    } else if entry.entryType == AdjustmentEntry {
      if component == Some(Gross) { gross := gross - signed; }
      if component == Some(Commission) { commission := commission + signed; }
      if component == Some(Tax) { tax := tax + signed; }
      if component == Some(VenueNet) { net := net + signed; }
    } else {
      if component == Some(Gross) { gross := gross + entry.amount; }
      if component == Some(Commission) { commission := commission + entry.amount; }
      if component == Some(Tax) { tax := tax + entry.amount; }
      if component == Some(VenueNet) { net := net + entry.amount; }
    }
    after := Totals(gross, commission, tax, refund, net);
  }

  /** `aggregate`: five accumulators over the entries. */
  method AggregateEntries(entries: seq<Row>, hydrated: seq<Row>) returns (totals: Totals)
    ensures totals == Aggregate(entries, hydrated)
  {
    var originals := OriginalsById(entries + hydrated);
    totals := ZERO;
    for k := 0 to |entries|
      invariant totals == AggregateWith(entries[..k], originals)
    {
      AggregateStep(entries, k, originals);
      totals := Accumulate(entries[k], ComponentOf(entries[k], originals), totals);
    }
    assert entries[..|entries|] == entries;
  }

  /** The totals by the rows' own components alone. */
  function Totalled(rows: seq<Row>): Totals {
    if rows == [] then ZERO
    else
      var last := rows[|rows| - 1];
      Plus(Totalled(rows[..|rows| - 1]), Contribution(last, OwnComponent(last)))
  }

  /** Posted rows carry their component, so which originals were looked up makes no difference. */
  lemma {:induction false} AggregateIsTotalled(entries: seq<Row>, originals: map<Id, Row>)
    requires forall k :: 0 <= k < |entries| ==> Shaped(entries[k])
    ensures AggregateWith(entries, originals) == Totalled(entries)
  {
    if entries != [] {
      AggregateIsTotalled(entries[..|entries| - 1], originals);
    }
  }

  /** What `assertAggregate` measures: zero exactly when the components produce the net. */
  function Imbalance(t: Totals): int {
    t.gross - t.refund - t.commission - t.tax - t.net
  }

  predicate AllSafe(t: Totals) {
    Safe(t.gross) && Safe(t.commission) && Safe(t.tax) && Safe(t.refund) && Safe(t.net)
  }

  /** Every well-formed row moves the imbalance by its signed amount, whatever its kind. */
  lemma RowImbalance(r: Row)
    requires Shaped(r)
    ensures Imbalance(Contribution(r, OwnComponent(r))) == -Signed(r)
  {
  }

  lemma {:induction false} ImbalanceIsBalance(rows: seq<Row>)
    requires forall k :: 0 <= k < |rows| ==> Shaped(rows[k])
    ensures Imbalance(Totalled(rows)) == -Balance(rows)
  {
    if rows != [] {
      ImbalanceIsBalance(rows[..|rows| - 1]);
      RowImbalance(rows[|rows| - 1]);
    }
  }

  // --------------------------------------------------------------------- queries

  /** The filters the ledger repository reads rows with. */
  datatype Query =
    | OfPartner(partner: Id, environment: Environment)
    | Unsettled(partner: Id, environment: Environment)
    | UnsettledIn(partner: Id, environment: Environment, from: Time, to: Time)
    | OfSettlement(settlement: Id)
    | OfSettlementVenue(settlement: Id, venue: Id)
    | PayableOf(settlement: Id, venue: Id)
    | OfPayout(payout: Id)

  predicate Hits(q: Query, r: Row) {
    match q
    case OfPartner(p, e) => r.partner == p && r.environment == e
    case Unsettled(p, e) => r.partner == p && r.environment == e && r.settlement == None
    case UnsettledIn(p, e, from, to) =>
      r.partner == p && r.environment == e && from <= r.effectiveAt < to && r.settlement == None
    case OfSettlement(s) => r.settlement == Some(s)
    case OfSettlementVenue(s, v) => r.settlement == Some(s) && r.venue == v
    case PayableOf(s, v) => r.settlement == Some(s) && r.venue == v && r.payout == None
    case OfPayout(p) => r.payout == Some(p)
  }

  function Select(rows: seq<Row>, q: Query): seq<Row> {
    if rows == [] then []
    else
      var rest := Select(rows[..|rows| - 1], q);
      if Hits(q, rows[|rows| - 1]) then rest + [rows[|rows| - 1]] else rest
  }

  lemma {:induction false} SelectMembers(rows: seq<Row>, q: Query)
    ensures forall r :: r in Select(rows, q) <==> r in rows && Hits(q, r)
  {
    if rows != [] {
      SelectMembers(rows[..|rows| - 1], q);
      assert rows == rows[..|rows| - 1] + [rows[|rows| - 1]];
    }
  }

  lemma SelectSnoc(rows: seq<Row>, r: Row, q: Query)
    ensures Select(rows + [r], q) == if Hits(q, r) then Select(rows, q) + [r] else Select(rows, q)
  {
    assert (rows + [r])[..|rows|] == rows;
  }

  lemma TotalledSnoc(rows: seq<Row>, r: Row)
    ensures Totalled(rows + [r]) == Plus(Totalled(rows), Contribution(r, OwnComponent(r)))
  {
    assert (rows + [r])[..|rows|] == rows;
  }

  // --------------------------------------------------------------- additivity

  /** The totals of several selections taken together. */
  function SumOf(rows: seq<Row>, parts: seq<Query>): Totals {
    if parts == [] then ZERO
    else Plus(SumOf(rows, parts[..|parts| - 1]), Totalled(Select(rows, parts[|parts| - 1])))
  }

  function HitCount(parts: seq<Query>, r: Row): nat {
    if parts == [] then 0
    else HitCount(parts[..|parts| - 1], r) + if Hits(parts[|parts| - 1], r) then 1 else 0
  }

  /** `parts` cut the rows of `whole` into pieces: a row of it is in exactly one, any other row in none. */
  predicate Partition(rows: seq<Row>, whole: Query, parts: seq<Query>) {
    forall k :: 0 <= k < |rows| ==> HitCount(parts, rows[k]) == if Hits(whole, rows[k]) then 1 else 0
  }

  lemma SelectTotalSnoc(rows: seq<Row>, r: Row, q: Query)
    ensures Totalled(Select(rows + [r], q))
         == if Hits(q, r) then Plus(Totalled(Select(rows, q)), Contribution(r, OwnComponent(r)))
            else Totalled(Select(rows, q))
  {
    SelectSnoc(rows, r, q);
    TotalledSnoc(Select(rows, q), r);
  }

  lemma {:induction false} SumOfSnoc(rows: seq<Row>, r: Row, parts: seq<Query>)
    requires HitCount(parts, r) <= 1
    ensures SumOf(rows + [r], parts)
         == if HitCount(parts, r) == 0 then SumOf(rows, parts)
            else Plus(SumOf(rows, parts), Contribution(r, OwnComponent(r)))
  {
    if parts != [] {
      SumOfSnoc(rows, r, parts[..|parts| - 1]);
      SelectTotalSnoc(rows, r, parts[|parts| - 1]);
    }
  }

  lemma {:induction false} SumOfNothing(parts: seq<Query>)
    ensures SumOf([], parts) == ZERO
  {
    if parts != [] {
      SumOfNothing(parts[..|parts| - 1]);
    }
  }

  lemma PartitionStep(init: seq<Row>, last: Row, whole: Query, parts: seq<Query>)
    requires SumOf(init, parts) == Totalled(Select(init, whole))
    requires HitCount(parts, last) == if Hits(whole, last) then 1 else 0
    ensures SumOf(init + [last], parts) == Totalled(Select(init + [last], whole))
  {
    SumOfSnoc(init, last, parts);
    SelectTotalSnoc(init, last, whole);
  }

  /** Totals are additive: the pieces of a partition add up to the whole. */
  lemma {:induction false} PartitionAddsUp(rows: seq<Row>, whole: Query, parts: seq<Query>)
    requires Partition(rows, whole, parts)
    ensures SumOf(rows, parts) == Totalled(Select(rows, whole))
  {
    if rows == [] {
      SumOfNothing(parts);
    } else {
      var init, last := rows[..|rows| - 1], rows[|rows| - 1];
      assert forall k :: 0 <= k < |init| ==> init[k] == rows[k];
      PartitionAddsUp(init, whole, parts);
      PartitionStep(init, last, whole, parts);
      assert rows == init + [last];
    }
  }

  // ------------------------------------------------------------ whole journals

  /** The collection's rows, posting after posting. */
  function Flatten(batches: seq<seq<Row>>): seq<Row> {
    if batches == [] then [] else Flatten(batches[..|batches| - 1]) + batches[|batches| - 1]
  }

  predicate Journals(batches: seq<seq<Row>>) {
    forall b :: 0 <= b < |batches| ==> Journal(batches[b])
  }

  /** A query never tells the rows of one journal apart. */
  lemma QueriesTakeJournalsWhole(q: Query, r: Row, s: Row)
    requires OneJournal(r, s)
    ensures Hits(q, r) == Hits(q, s)
  {
  }

  lemma {:induction false} SelectAppend(a: seq<Row>, b: seq<Row>, q: Query)
    ensures Select(a + b, q) == Select(a, q) + Select(b, q)
  {
    if b == [] {
      assert a + b == a;
    } else {
      var n := |b| - 1;
      assert (a + b)[..|a + b| - 1] == a + b[..n];
      SelectAppend(a, b[..n], q);
    }
  }

  lemma {:induction false} SelectAll(rows: seq<Row>, q: Query, hit: bool)
    requires forall k :: 0 <= k < |rows| ==> Hits(q, rows[k]) == hit
    ensures Select(rows, q) == if hit then rows else []
  {
    if rows != [] {
      var n := |rows| - 1;
      SelectAll(rows[..n], q, hit);
      assert rows == rows[..n] + [rows[n]];
    }
  }

  lemma {:induction false} BalanceAppend(a: seq<Row>, b: seq<Row>)
    ensures Balance(a + b) == Balance(a) + Balance(b)
  {
    if b == [] {
      assert a + b == a;
    } else {
      var n := |b| - 1;
      assert (a + b)[..|a + b| - 1] == a + b[..n];
      BalanceAppend(a, b[..n]);
    }
  }

  lemma JournalSelected(batch: seq<Row>, q: Query)
    requires Journal(batch)
    ensures Balance(Select(batch, q)) == 0
  {
    forall k | 0 <= k < |batch|
      ensures Hits(q, batch[k]) == Hits(q, batch[0])
    {
      QueriesTakeJournalsWhole(q, batch[k], batch[0]);
    }
    SelectAll(batch, q, Hits(q, batch[0]));
  }

  lemma {:induction false} SelectionBalanced(batches: seq<seq<Row>>, q: Query)
    requires Journals(batches)
    ensures Balance(Select(Flatten(batches), q)) == 0
  {
    if batches != [] {
      var n := |batches| - 1;
      SelectionBalanced(batches[..n], q);
      JournalSelected(batches[n], q);
      SelectAppend(Flatten(batches[..n]), batches[n], q);
      BalanceAppend(Select(Flatten(batches[..n]), q), Select(batches[n], q));
    }
  }

  lemma {:induction false} FlattenShaped(batches: seq<seq<Row>>)
    requires Journals(batches)
    ensures forall k :: 0 <= k < |Flatten(batches)| ==> Shaped(Flatten(batches)[k]) && Flatten(batches)[k].amount >= 0
  {
    if batches != [] {
      FlattenShaped(batches[..|batches| - 1]);
    }
  }

  /** No selection of a ledger of whole journals is ever out of balance. */
  lemma SelectionNetsOut(batches: seq<seq<Row>>, q: Query, hydrated: seq<Row>)
    requires Journals(batches)
    ensures var rows := Select(Flatten(batches), q);
            Aggregate(rows, hydrated) == Totalled(rows) && Imbalance(Aggregate(rows, hydrated)) == 0
  {
    var rows := Select(Flatten(batches), q);
    FlattenShaped(batches);
    SelectMembers(Flatten(batches), q);
    assert forall k :: 0 <= k < |rows| ==> rows[k] in rows;
    AggregateIsTotalled(rows, OriginalsById(rows + hydrated));
    ImbalanceIsBalance(rows);
    SelectionBalanced(batches, q);
  }

  /** Equal in everything `aggregate` reads. */
  predicate SameMoney(r: Row, s: Row) {
    Contribution(r, OwnComponent(r)) == Contribution(s, OwnComponent(s))
  }

  /** Selections that take corresponding rows have the same totals. */
  lemma {:induction false} SameTotals(rows: seq<Row>, q: Query, others: seq<Row>, p: Query)
    requires |rows| == |others|
    requires forall k :: 0 <= k < |rows| ==> SameMoney(rows[k], others[k]) && Hits(q, rows[k]) == Hits(p, others[k])
    ensures Totalled(Select(rows, q)) == Totalled(Select(others, p))
  {
    if rows != [] {
      var n := |rows| - 1;
      SameTotals(rows[..n], q, others[..n], p);
      assert rows == rows[..n] + [rows[n]] && others == others[..n] + [others[n]];
      SelectTotalSnoc(rows[..n], rows[n], q);
      SelectTotalSnoc(others[..n], others[n], p);
    }
  }
}
