/**
 A partner's ledger in three parts: the confirmations of its bookings, their refunds, and
 adjustments; and what a refund adds up to.
 */
module LedgerParts {
  import opened Base
  import opened Money
  import opened LedgerTypes
  import opened Traces
  import A = Aggregates
  import L = Ledger
  import Sp = Split

  // ------------------------------------------------------- a ledger, booking by booking

  function KindTotal(rows: seq<Row>, booking: Id, kind: Kind): A.Totals {
    A.Totalled(Trace(rows, booking, kind))
  }

  /** The totals of the rows of one kind over some bookings. */
  function KindSum(rows: seq<Row>, ids: seq<Id>, kind: Kind): A.Totals {
    if ids == [] then A.ZERO
    else A.Plus(KindSum(rows, ids[..|ids| - 1], kind), KindTotal(rows, ids[|ids| - 1], kind))
  }

  predicate Adjusts(r: Row, partner: Id, environment: Environment) {
    r.entryType.AdjustmentEntry? && r.partner == partner && r.environment == environment
  }

  /** The totals of a partner's adjustments. */
  function AdjustedSum(rows: seq<Row>, partner: Id, environment: Environment): A.Totals {
    if rows == [] then A.ZERO
    else
      var rest, r := AdjustedSum(rows[..|rows| - 1], partner, environment), rows[|rows| - 1];
      if Adjusts(r, partner, environment) then A.Plus(rest, A.Contribution(r, A.OwnComponent(r))) else rest
  }

  predicate DistinctIds(ids: seq<Id>) {
    forall i, j :: 0 <= i < j < |ids| ==> ids[i] != ids[j]
  }

  /** Apart from adjustments, the partner's rows are those of the bookings listed. */
  predicate Covered(rows: seq<Row>, ids: seq<Id>, partner: Id, environment: Environment) {
    forall k :: 0 <= k < |rows| && !rows[k].entryType.AdjustmentEntry? ==>
      (rows[k].booking in ids <==> A.Hits(A.OfPartner(partner, environment), rows[k]))
  }

  function AddIf(t: A.Totals, hit: bool, x: A.Totals): A.Totals {
    if hit then A.Plus(t, x) else t
  }

  /** What one row adds wherever it counts. */
  function WorthOf(r: Row): A.Totals {
    A.Contribution(r, A.OwnComponent(r))
  }

  lemma TraceStep(rows: seq<Row>, booking: Id, kind: Kind)
    requires rows != []
    ensures var init, r := rows[..|rows| - 1], rows[|rows| - 1];
            KindTotal(rows, booking, kind) == AddIf(KindTotal(init, booking, kind), Traced(r, booking, kind), WorthOf(r))
  {
    var init, r := rows[..|rows| - 1], rows[|rows| - 1];
    A.TotalledSnoc(Trace(init, booking, kind), Erase(r));
  }

  lemma AdjustedStep(rows: seq<Row>, partner: Id, environment: Environment)
    requires rows != []
    ensures var init, r := rows[..|rows| - 1], rows[|rows| - 1];
            AdjustedSum(rows, partner, environment) == AddIf(AdjustedSum(init, partner, environment), Adjusts(r, partner, environment), WorthOf(r))
  {
  }

  function PartnerTotal(rows: seq<Row>, partner: Id, environment: Environment): A.Totals {
    A.Totalled(A.Select(rows, A.OfPartner(partner, environment)))
  }

  lemma PartnerStep(rows: seq<Row>, partner: Id, environment: Environment)
    requires rows != []
    ensures var init, r := rows[..|rows| - 1], rows[|rows| - 1];
            PartnerTotal(rows, partner, environment)
            == AddIf(PartnerTotal(init, partner, environment), A.Hits(A.OfPartner(partner, environment), r), WorthOf(r))
  {
    var init, r := rows[..|rows| - 1], rows[|rows| - 1];
    A.SelectTotalSnoc(init, r, A.OfPartner(partner, environment));
    assert rows == init + [r];
  }

  lemma PlusAddIf(a: A.Totals, b: A.Totals, inA: bool, inB: bool, x: A.Totals)
    requires !(inA && inB)
    ensures A.Plus(AddIf(a, inA, x), AddIf(b, inB, x)) == AddIf(A.Plus(a, b), inA || inB, x)
  {
  }

  lemma {:induction false} KindStep(rows: seq<Row>, ids: seq<Id>, kind: Kind)
    requires rows != [] && DistinctIds(ids)
    ensures var init, r := rows[..|rows| - 1], rows[|rows| - 1];
            KindSum(rows, ids, kind) == AddIf(KindSum(init, ids, kind), r.booking in ids && Traced(r, r.booking, kind), WorthOf(r))
  {
    if ids != [] {
      var init, r, n := rows[..|rows| - 1], rows[|rows| - 1], |ids| - 1;
      assert ids == ids[..n] + [ids[n]];
      KindStep(rows, ids[..n], kind);
      TraceStep(rows, ids[n], kind);
      PlusAddIf(KindSum(init, ids[..n], kind), KindTotal(init, ids[n], kind), r.booking in ids[..n] && Traced(r, r.booking, kind),
                Traced(r, ids[n], kind), WorthOf(r));
    }
  }

  lemma NoRowNoTotal(booking: Id, kind: Kind)
    ensures KindTotal([], booking, kind) == A.ZERO
  {
  }

  lemma {:induction false} KindSumOfNothing(ids: seq<Id>, kind: Kind)
    ensures KindSum([], ids, kind) == A.ZERO
  {
    if ids != [] {
      KindSumOfNothing(ids[..|ids| - 1], kind);
      NoRowNoTotal(ids[|ids| - 1], kind);
    }
  }

  /** A row of the whole belongs to exactly one of the three parts. */
  lemma AddsUpStep(t: A.Totals, a: A.Totals, b: A.Totals, c: A.Totals, x: A.Totals, inA: bool, inB: bool, inC: bool)
    requires t == A.Plus(A.Plus(a, b), c) && !(inA && inB) && !(inA && inC) && !(inB && inC)
    ensures AddIf(t, inA || inB || inC, x) == A.Plus(A.Plus(AddIf(a, inA, x), AddIf(b, inB, x)), AddIf(c, inC, x))
  {
  }

  lemma OneKind(r: Row)
    ensures !(Traced(r, r.booking, Confirmations) && Traced(r, r.booking, Refunds))
    ensures r.entryType.AdjustmentEntry? <==> !Traced(r, r.booking, Confirmations) && !Traced(r, r.booking, Refunds)
  {
  }

  /** The totals of a ledger's three parts. */
  function Parts(rows: seq<Row>, ids: seq<Id>, partner: Id, environment: Environment): A.Totals {
    A.Plus(A.Plus(KindSum(rows, ids, Confirmations), KindSum(rows, ids, Refunds)), AdjustedSum(rows, partner, environment))
  }

  lemma PartsStep(rows: seq<Row>, ids: seq<Id>, partner: Id, environment: Environment)
    requires rows != [] && DistinctIds(ids) && Covered(rows, ids, partner, environment)
    ensures var init, r := rows[..|rows| - 1], rows[|rows| - 1];
            Parts(rows, ids, partner, environment)
            == AddIf(Parts(init, ids, partner, environment), A.Hits(A.OfPartner(partner, environment), r), WorthOf(r))
  {
    var init, r := rows[..|rows| - 1], rows[|rows| - 1];
    KindStep(rows, ids, Confirmations);
    KindStep(rows, ids, Refunds);
    AdjustedStep(rows, partner, environment);
    OneKind(r);
    AddsUpStep(Parts(init, ids, partner, environment), KindSum(init, ids, Confirmations), KindSum(init, ids, Refunds),
               AdjustedSum(init, partner, environment), WorthOf(r),
               r.booking in ids && Traced(r, r.booking, Confirmations), r.booking in ids && Traced(r, r.booking, Refunds),
               Adjusts(r, partner, environment));
  }

  lemma PlusZeros(a: A.Totals, b: A.Totals, c: A.Totals)
    requires a == b == c == A.ZERO
    ensures A.Plus(A.Plus(a, b), c) == A.ZERO
  {
  }

  lemma EmptyTotals(partner: Id, environment: Environment)
    ensures PartnerTotal([], partner, environment) == A.ZERO && AdjustedSum([], partner, environment) == A.ZERO
  {
  }

  lemma EmptyAddsUp(ids: seq<Id>, partner: Id, environment: Environment)
    ensures PartnerTotal([], partner, environment) == Parts([], ids, partner, environment)
  {
    EmptyTotals(partner, environment);
    KindSumOfNothing(ids, Confirmations);
    KindSumOfNothing(ids, Refunds);
    PlusZeros(KindSum([], ids, Confirmations), KindSum([], ids, Refunds), AdjustedSum([], partner, environment));
  }

  /** Everything of a partner is of one of its bookings, confirmed or refunded, or an adjustment. */
  lemma {:induction false} LedgerAddsUp(rows: seq<Row>, ids: seq<Id>, partner: Id, environment: Environment)
    requires DistinctIds(ids) && Covered(rows, ids, partner, environment)
    ensures PartnerTotal(rows, partner, environment) == Parts(rows, ids, partner, environment)
  {
    if rows == [] {
      EmptyAddsUp(ids, partner, environment);
    } else {
      var init := rows[..|rows| - 1];
      assert forall k :: 0 <= k < |init| ==> init[k] == rows[k];
      LedgerAddsUp(init, ids, partner, environment);
      PartnerStep(rows, partner, environment);
      PartsStep(rows, ids, partner, environment);
    }
  }

  // ------------------------------------------------------------------ what a refund totals

  function Sum(ts: seq<A.Totals>): A.Totals {
    if ts == [] then A.ZERO else A.Plus(Sum(ts[..|ts| - 1]), ts[|ts| - 1])
  }

  lemma SumStep(ts: seq<A.Totals>)
    requires ts != []
    ensures Sum(ts) == A.Plus(Sum(ts[..|ts| - 1]), ts[|ts| - 1])
  {
  }

  /** What a reversal of `amount` adds. */
  function ShareOf(o: Row, amount: int): A.Totals {
    A.Contribution(L.ReversalRow(o, amount, 0, "", 0), A.OwnComponent(L.ReversalRow(o, amount, 0, "", 0)))
  }

  /** What the reversals of `amounts` add, one by one. */
  function Shares(o: seq<Row>, amounts: seq<int>): (ts: seq<A.Totals>)
    requires |amounts| == |o|
    ensures |ts| == |o|
  {
    seq(|o|, k requires 0 <= k < |o| => ShareOf(o[k], amounts[k]))
  }

  lemma ShareAnywhere(o: Row, amount: int, at: Time, correlation: string, id: Id)
    ensures var r := L.ReversalRow(o, amount, at, correlation, id); A.Contribution(r, A.OwnComponent(r)) == ShareOf(o, amount)
    ensures amount == 0 ==> ShareOf(o, amount) == A.ZERO
  {
  }

  lemma PlusZero(t: A.Totals)
    ensures A.Plus(t, A.ZERO) == t
  {
  }

  function ReversalTotal(o: seq<Row>, amounts: seq<int>, at: Time, correlation: string, id: Id): A.Totals
    requires |amounts| == |o|
  {
    A.Totalled(L.ReversalRows(o, amounts, at, correlation, id))
  }

  /** A zero amount is not posted and adds nothing. */
  lemma ReversalStep(o: seq<Row>, amounts: seq<int>, at: Time, correlation: string, id: Id)
    requires |amounts| == |o| > 0
    ensures var n := |o| - 1;
            ReversalTotal(o, amounts, at, correlation, id)
            == A.Plus(ReversalTotal(o[..n], amounts[..n], at, correlation, id), ShareOf(o[n], amounts[n]))
  {
    var n := |o| - 1;
    var rest := L.ReversalRows(o[..n], amounts[..n], at, correlation, id);
    L.ReversalRowsLast(o, amounts, at, correlation, id);
    ShareAnywhere(o[n], amounts[n], at, correlation, id + |rest|);
    if amounts[n] == 0 {
      PlusZero(A.Totalled(rest));
    } else {
      A.TotalledSnoc(rest, L.ReversalRow(o[n], amounts[n], at, correlation, id + |rest|));
    }
  }

  lemma {:induction false} ReversalsTotal(o: seq<Row>, amounts: seq<int>, at: Time, correlation: string, id: Id)
    requires |amounts| == |o|
    ensures ReversalTotal(o, amounts, at, correlation, id) == Sum(Shares(o, amounts))
  {
    if o != [] {
      var n := |o| - 1;
      ReversalsTotal(o[..n], amounts[..n], at, correlation, id);
      ReversalStep(o, amounts, at, correlation, id);
      SumStep(Shares(o, amounts));
      assert Shares(o, amounts)[..n] == Shares(o[..n], amounts[..n]);
    }
  }

  lemma SumSnoc(ts: seq<A.Totals>, x: A.Totals)
    ensures Sum(ts + [x]) == A.Plus(Sum(ts), x)
  {
    assert (ts + [x])[..|ts|] == ts;
  }

  lemma SumOfFour(a: A.Totals, b: A.Totals, c: A.Totals, d: A.Totals)
    ensures Sum([a, b, c, d]) == A.Plus(A.Plus(A.Plus(a, b), c), d)
  {
    SumSnoc([], a);
    SumSnoc([a], b);
    SumSnoc([a, b], c);
    SumSnoc([a, b, c], d);
    assert [] + [a] == [a] && [a] + [b] == [a, b] && [a, b] + [c] == [a, b, c] && [a, b, c] + [d] == [a, b, c, d];
    assert A.Plus(A.ZERO, a) == a;
  }

  /** What an amount that reverses gross, commission, tax or net adds. */
  function GrossShare(x: int): A.Totals { A.Totals(0, 0, 0, x, 0) }

  function CommissionShare(x: int): A.Totals { A.Totals(0, -x, 0, 0, 0) }

  function TaxShare(x: int): A.Totals { A.Totals(0, 0, -x, 0, 0) }

  function NetShare(x: int): A.Totals { A.Totals(0, 0, 0, 0, -x) }

  /** The four rows of a confirmation, by what they book. */
  predicate FourRows(journal: seq<Row>) {
    |journal| == 4 && (forall k :: 0 <= k < 4 ==> journal[k].direction == if k == 0 then Debit else Credit)
    && journal[0].component == Some(Gross) && journal[1].component == Some(Commission)
    && journal[2].component == Some(Tax) && journal[3].component == Some(VenueNet)
  }

  lemma JournalShares(journal: seq<Row>, x: seq<int>)
    requires FourRows(journal) && |x| == 4
    ensures Shares(journal, x) == [GrossShare(x[0]), CommissionShare(x[1]), TaxShare(x[2]), NetShare(x[3])]
  {
  }

  lemma FourTotals(g: int, c: int, t: int, n: int)
    ensures A.Plus(A.Plus(A.Plus(GrossShare(g), CommissionShare(c)), TaxShare(t)), NetShare(n)) == A.Totals(0, -c, -t, g, -n)
  {
  }

  lemma FourSum(g: int, c: int, t: int, n: int)
    ensures Sum([GrossShare(g), CommissionShare(c), TaxShare(t), NetShare(n)]) == A.Totals(0, -c, -t, g, -n)
  {
    SumOfFour(GrossShare(g), CommissionShare(c), TaxShare(t), NetShare(n));
    FourTotals(g, c, t, n);
  }

  lemma JournalRefund(o: seq<Row>, x: seq<int>, ts: seq<A.Totals>, total: A.Totals, at: Time, correlation: string, id: Id)
    requires |o| == |x| && Shares(o, x) == ts && Sum(ts) == total
    ensures A.Totalled(L.ReversalRows(o, x, at, correlation, id)) == total
  {
    ReversalsTotal(o, x, at, correlation, id);
  }

  lemma FourReversals(journal: seq<Row>, x: seq<int>, at: Time, correlation: string, id: Id)
    requires FourRows(journal) && |x| == 4
    ensures A.Totalled(L.ReversalRows(journal, x, at, correlation, id)) == A.Totals(0, -x[1], -x[2], x[0], -x[3])
  {
    JournalShares(journal, x);
    FourSum(x[0], x[1], x[2], x[3]);
    JournalRefund(journal, x, [GrossShare(x[0]), CommissionShare(x[1]), TaxShare(x[2]), NetShare(x[3])],
                  A.Totals(0, -x[1], -x[2], x[0], -x[3]), at, correlation, id);
  }

  /** A refund of `amount` takes that much off the gross, and as much in all off commission, tax and net. */
  predicate TakesBack(t: A.Totals, amount: int) {
    t.gross == 0 && t.refund == amount && t.commission + t.tax + t.net == -amount
  }

  lemma ReversalsTakeBack(journal: seq<Row>, x: seq<int>, amount: int, at: Time, correlation: string, id: Id)
    requires FourRows(journal) && |x| == 4
    requires Sp.DirSum(L.Legs(journal), x, Debit) == amount && Sp.DirSum(L.Legs(journal), x, Credit) == amount
    ensures TakesBack(A.Totalled(L.ReversalRows(journal, x, at, correlation, id)), amount)
  {
    FourReversals(journal, x, at, correlation, id);
    Sp.OneDebitThreeCredits(L.Legs(journal), x);
  }

  /** Whatever order the split serves ties in, a refund takes back the rounded share of the gross. */
  lemma RefundTakesBack(journal: seq<Row>, percent: nat, amount: int, at: Time, correlation: string, id: Id)
    requires FourRows(journal)
    requires Sp.Target(L.Legs(journal), percent, Debit) == amount && Sp.Target(L.Legs(journal), percent, Credit) == amount
    ensures TakesBack(A.Totalled(RefundRows(journal, percent, at, correlation, id)), amount)
  {
    Sp.ScaledTotal(L.Legs(journal), percent, Debit);
    Sp.ScaledTotal(L.Legs(journal), percent, Credit);
    ReversalsTakeBack(journal, Sp.Scaled(L.Legs(journal), percent), amount, at, correlation, id);
  }

  /** Both sides of a balanced journal have one target, the rounded share of its gross. */
  lemma TargetsOfFour(journal: seq<Row>, percent: nat)
    requires FourRows(journal) && journal[0].amount >= 0 && journal[1].amount >= 0 && journal[2].amount >= 0 && journal[3].amount >= 0
    requires journal[0].amount == journal[1].amount + journal[2].amount + journal[3].amount
    ensures Sp.Target(L.Legs(journal), percent, Debit) == RoundDiv(journal[0].amount * percent, 100)
    ensures Sp.Target(L.Legs(journal), percent, Credit) == RoundDiv(journal[0].amount * percent, 100)
  {
    Sp.OneDebitThreeCredits(L.Legs(journal), Sp.Amounts(L.Legs(journal)));
  }

  lemma {:induction false} TraceHas(rows: seq<Row>, booking: Id, kind: Kind, k: nat)
    requires k < |rows| && Traced(rows[k], booking, kind)
    ensures Erase(rows[k]) in Trace(rows, booking, kind)
  {
    if k < |rows| - 1 {
      TraceHas(rows[..|rows| - 1], booking, kind, k);
    }
  }
}
