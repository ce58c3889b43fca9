/**
 Price splits and refunds: the amounts a confirmation fixes, the rule a cancellation
 picks from the snapshotted policy, and how both meet the ledger.
 */
module Refunds {
  import opened Base
  import opened Money
  import opened LedgerTypes
  import D = Doubles
  import L = Ledger
  import S = Split

  // ------------------------------------------------------------------- confirmation

  /** A contract's rates in basis points, as `normalizeTerms` lets them through. */
  datatype Rates = Rates(commissionBps: nat, taxBps: nat)

  predicate RatesValid(r: Rates) {
    r.commissionBps + r.taxBps <= 10_000
  }

  datatype Amounts = Amounts(gross: int, commission: int, tax: int, venueNet: int)

  function CalculateAmounts(gross: int, rates: Rates): Amounts {
    var commission := RoundDiv(gross * rates.commissionBps, 10_000);
    var tax := RoundDiv(gross * rates.taxBps, 10_000);
    Amounts(gross, commission, tax, gross - commission - tax)
  }

  /** Both shares are cut at a half and nothing is left for the venue to absorb the extra unit. */
  predicate BothRoundUp(gross: int, rates: Rates) {
    rates.commissionBps + rates.taxBps == 10_000 && gross * rates.commissionBps % 10_000 == 5_000
  }

  /** Two quotients rounded separately exceed their sum by at most one, and by one only at two exact halves. */
  lemma TwoRoundings(x: int, y: int, whole: int)
    requires x + y <= 10_000 * whole
    ensures RoundDiv(x, 10_000) + RoundDiv(y, 10_000) <= whole + 1
    ensures RoundDiv(x, 10_000) + RoundDiv(y, 10_000) == whole + 1 <==> x + y == 10_000 * whole && x % 10_000 == 5_000
  {
  }

  lemma SharesTotal(gross: nat, rates: Rates)
    requires RatesValid(rates)
    ensures gross * rates.commissionBps + gross * rates.taxBps <= 10_000 * gross
    ensures gross > 0 ==> (gross * rates.commissionBps + gross * rates.taxBps == 10_000 * gross
                           <==> rates.commissionBps + rates.taxBps == 10_000)
  {
  }

  /** The venue's net is at least -1, and -1 exactly when the rates use up everything and both round up. */
  lemma VenueNetBound(gross: nat, rates: Rates)
    requires RatesValid(rates)
    ensures CalculateAmounts(gross, rates).venueNet >= -1
    ensures CalculateAmounts(gross, rates).venueNet == -1 <==> BothRoundUp(gross, rates)
  {
    SharesTotal(gross, rates);
    TwoRoundings(gross * rates.commissionBps, gross * rates.taxBps, gross);
  }

  function SnapshotOf(booking: Id, partner: Id, venue: Id, contract: Id, environment: Environment,
                      a: Amounts): Snapshot {
    Snapshot(booking, Some(partner), venue, Some(contract), environment, a.gross, a.commission, a.tax, a.venueNet)
  }

  lemma ShareBounds(gross: nat, bps: nat)
    requires bps <= 10_000
    ensures 0 <= RoundDiv(gross * bps, 10_000) <= gross
  {
  }

  /**
   A partner booking's journal is posted exactly when the venue's net did not fall below
   zero: with rates of 100 percent in all and a gross that halves both, confirmation fails.
   */
  lemma ConfirmationPosts(booking: Id, partner: Id, venue: Id, contract: Id, environment: Environment, gross: nat,
                          rates: Rates, at: Time, correlation: string, id: Id)
    requires RatesValid(rates) && gross <= MAX_SAFE && correlation != ""
    ensures L.BookingPosting(SnapshotOf(booking, partner, venue, contract, environment, CalculateAmounts(gross, rates)),
                             at, correlation, id).Ok?
       <==> !BothRoundUp(gross, rates)
  {
    var s := SnapshotOf(booking, partner, venue, contract, environment, CalculateAmounts(gross, rates));
    VenueNetBound(gross, rates);
    ShareBounds(gross, rates.commissionBps);
    ShareBounds(gross, rates.taxBps);
    L.BookingAccepted(s, at, correlation, id);
  }

  /** The least price that fails: one minor unit at 50 percent commission and 50 percent tax is never posted. */
  lemma HalfAndHalf(booking: Id, partner: Id, venue: Id, contract: Id, environment: Environment, at: Time,
                    correlation: string, id: Id)
    ensures RatesValid(Rates(5_000, 5_000)) && CalculateAmounts(1, Rates(5_000, 5_000)) == Amounts(1, 1, 1, -1)
    ensures L.BookingPosting(SnapshotOf(booking, partner, venue, contract, environment, Amounts(1, 1, 1, -1)), at, correlation, id).Err?
  {
    if correlation != "" {
      ConfirmationPosts(booking, partner, venue, contract, environment, 1, Rates(5_000, 5_000), at, correlation, id);
    }
  }

  /** While products are at most 2^53, `Math.round` of the double quotients gives exactly these shares. */
  lemma AmountsAreDoubles(gross: nat, rates: Rates)
    requires gross * rates.commissionBps <= D.TWO_53 && gross * rates.taxBps <= D.TWO_53
    ensures CalculateAmounts(gross, rates).commission == RoundDiv(D.Quotient(gross * rates.commissionBps, 10_000), D.SCALE)
    ensures CalculateAmounts(gross, rates).tax == RoundDiv(D.Quotient(gross * rates.taxBps, 10_000), D.SCALE)
  {
    D.DoublesAgree(gross * rates.commissionBps, 10_000);
    D.DoublesAgree(gross * rates.taxBps, 10_000);
  }

  // ------------------------------------------------------------------- cancellation

  /** A refund rule of the stored snapshot, whose fields the code does not take for granted. */
  datatype Rule = Rule(minMinutes: Option<int>, refundBps: Option<int>, release: Option<bool>)

  datatype PolicySnapshot = PolicySnapshot(
    allowed: Option<bool>,
    defaultRefundBps: Option<int>,
    defaultRelease: Option<bool>,
    rules: seq<Rule>,
    resaleCutoff: Option<int>
  )

  datatype Policy = Policy(allowed: bool, refundPercent: int, releaseInventory: bool)

  function OrElse<T>(o: Option<T>, default: T): T {
    match o
    case Some(value) => value
    case None => default
  }

  function Threshold(r: Rule): int {
    OrElse(r.minMinutes, 0)
  }

  function MinutesBefore(startsAt: Time, now: Time): int {
    if startsAt < now then 0 else (startsAt - now) / 60_000
  }

  predicate Eligible(r: Rule, minutes: int) {
    minutes >= Threshold(r)
  }

  /** Where a stable descending sort puts `r` among rules that came after it. */
  function Insert(r: Rule, sorted: seq<Rule>): seq<Rule> {
    if sorted == [] || Threshold(sorted[0]) <= Threshold(r) then [r] + sorted
    else [sorted[0]] + Insert(r, sorted[1..])
  }

  function SortedByThreshold(rules: seq<Rule>): seq<Rule> {
    if rules == [] then [] else Insert(rules[0], SortedByThreshold(rules[1..]))
  }

  function FirstEligible(rules: seq<Rule>, minutes: int): Option<Rule> {
    if rules == [] then None
    else if Eligible(rules[0], minutes) then Some(rules[0])
    else FirstEligible(rules[1..], minutes)
  }

  function Chosen(rules: seq<Rule>, minutes: int): Option<Rule> {
    FirstEligible(SortedByThreshold(rules), minutes)
  }

  function ClampPercent(bps: int): int {
    var percent := RoundDiv(bps, 100);
    if percent > 100 then 100 else if percent < 0 then 0 else percent
  }

  function RefundBps(snapshot: PolicySnapshot, rule: Option<Rule>): int {
    var default := OrElse(snapshot.defaultRefundBps, 0);
    match rule
    case Some(r) => OrElse(r.refundBps, default)
    case None => default
  }

  function ReleaseByPolicy(snapshot: PolicySnapshot, rule: Option<Rule>): bool {
    var default := OrElse(snapshot.defaultRelease, false);
    match rule
    case Some(r) => OrElse(r.release, default)
    case None => default
  }

  /** `cancellationPolicy`. */
  function CancellationPolicy(snapshot: PolicySnapshot, startsAt: Time, now: Time): Policy {
    if !OrElse(snapshot.allowed, false) then Policy(false, 0, false)
    else
      var minutes := MinutesBefore(startsAt, now);
      var rule := Chosen(snapshot.rules, minutes);
      Policy(true, ClampPercent(RefundBps(snapshot, rule)),
             ReleaseByPolicy(snapshot, rule) && minutes >= OrElse(snapshot.resaleCutoff, 0))
  }

  lemma PolicyInRange(snapshot: PolicySnapshot, startsAt: Time, now: Time)
    ensures 0 <= CancellationPolicy(snapshot, startsAt, now).refundPercent <= 100
  {
  }

  predicate Descending(rules: seq<Rule>) {
    forall i, j :: 0 <= i < j < |rules| ==> Threshold(rules[i]) >= Threshold(rules[j])
  }

  lemma {:induction false} InsertSorted(r: Rule, sorted: seq<Rule>)
    requires Descending(sorted)
    ensures Descending(Insert(r, sorted))
    ensures sorted != [] && Threshold(sorted[0]) > Threshold(r) ==> Insert(r, sorted)[0] == sorted[0]
    ensures forall x :: x in Insert(r, sorted) <==> x == r || x in sorted
  {
    if sorted != [] && Threshold(sorted[0]) > Threshold(r) {
      InsertSorted(r, sorted[1..]);
      assert sorted == [sorted[0]] + sorted[1..];
      var rest := Insert(r, sorted[1..]);
      forall j | 0 <= j < |rest|
        ensures Threshold(rest[j]) <= Threshold(sorted[0])
      {
        assert rest[j] in rest;
      }
    }
  }

  lemma {:induction false} SortSorts(rules: seq<Rule>)
    ensures Descending(SortedByThreshold(rules))
    ensures forall x :: x in SortedByThreshold(rules) <==> x in rules
  {
    if rules != [] {
      SortSorts(rules[1..]);
      InsertSorted(rules[0], SortedByThreshold(rules[1..]));
      assert rules == [rules[0]] + rules[1..];
    }
  }

  /** One rule more in front of a sorted list: it wins when it is eligible and no later rule beats it. */
  lemma {:induction false} InsertChosen(r: Rule, sorted: seq<Rule>, minutes: int)
    requires Descending(sorted)
    ensures FirstEligible(Insert(r, sorted), minutes)
         == var later := FirstEligible(sorted, minutes);
            if Eligible(r, minutes) && (later == None || Threshold(later.value) <= Threshold(r)) then Some(r) else later
  {
    if sorted != [] && Threshold(sorted[0]) > Threshold(r) {
      InsertChosen(r, sorted[1..], minutes);
    } else if sorted != [] {
      FirstEligibleIn(sorted, minutes);
      assert ([r] + sorted)[1..] == sorted;
    } else {
      assert ([r] + sorted)[1..] == sorted;
    }
  }

  lemma {:induction false} FirstEligibleIn(rules: seq<Rule>, minutes: int)
    ensures var r := FirstEligible(rules, minutes);
            if r == None then forall k :: 0 <= k < |rules| ==> !Eligible(rules[k], minutes)
            else r.value in rules && Eligible(r.value, minutes)
  {
    if rules != [] && !Eligible(rules[0], minutes) {
      FirstEligibleIn(rules[1..], minutes);
    }
  }

  /** `k` is the first rule of the greatest threshold the remaining minutes reach. */
  predicate Best(rules: seq<Rule>, minutes: int, k: nat) {
    && k < |rules| && Eligible(rules[k], minutes)
    && (forall j :: 0 <= j < |rules| && Eligible(rules[j], minutes) ==> Threshold(rules[j]) <= Threshold(rules[k]))
    && (forall j :: 0 <= j < k && Eligible(rules[j], minutes) ==> Threshold(rules[j]) < Threshold(rules[k]))
  }

  lemma BestOfTail(rules: seq<Rule>, minutes: int, k: nat)
    requires rules != [] && Best(rules[1..], minutes, k)
    requires !Eligible(rules[0], minutes) || Threshold(rules[0]) < Threshold(rules[1..][k])
    ensures Best(rules, minutes, k + 1)
  {
  }

  lemma BestOfHead(rules: seq<Rule>, minutes: int)
    requires rules != [] && Eligible(rules[0], minutes)
    requires forall j :: 0 <= j < |rules[1..]| && Eligible(rules[1..][j], minutes) ==> Threshold(rules[1..][j]) <= Threshold(rules[0])
    ensures Best(rules, minutes, 0)
  {
    var tail := rules[1..];
    assert forall j :: 0 < j < |rules| ==> rules[j] == tail[j - 1];
  }

  /** Sorting and searching finds the best rule in the order given. */
  lemma {:induction false} FindBest(rules: seq<Rule>, minutes: int) returns (best: Option<nat>)
    ensures best.Some? ==> Best(rules, minutes, best.value) && Chosen(rules, minutes) == Some(rules[best.value])
    ensures best == None ==> Chosen(rules, minutes) == None && forall k :: 0 <= k < |rules| ==> !Eligible(rules[k], minutes)
  {
    best := None;
    if rules != [] {
      var tail := rules[1..];
      var later := FindBest(tail, minutes);
      SortSorts(tail);
      InsertChosen(rules[0], SortedByThreshold(tail), minutes);
      if Eligible(rules[0], minutes) && (later == None || Threshold(tail[later.value]) <= Threshold(rules[0])) {
        BestOfHead(rules, minutes);
        best := Some(0);
      } else if later.Some? {
        BestOfTail(rules, minutes, later.value);
        best := Some(later.value + 1);
      }
    }
  }

  /** The best rule is the one chosen, whatever order the rules come in. */
  lemma BestIsChosen(rules: seq<Rule>, minutes: int, k: nat)
    requires Best(rules, minutes, k)
    ensures Chosen(rules, minutes) == Some(rules[k])
  {
    var best := FindBest(rules, minutes);
  }

  /** No rule is chosen exactly when none is eligible. */
  lemma NoneChosen(rules: seq<Rule>, minutes: int)
    ensures Chosen(rules, minutes) == None <==> forall k :: 0 <= k < |rules| ==> !Eligible(rules[k], minutes)
  {
    var best := FindBest(rules, minutes);
  }

  predicate DistinctThresholds(rules: seq<Rule>) {
    forall i, j :: 0 <= i < j < |rules| ==> Threshold(rules[i]) != Threshold(rules[j])
  }

  lemma ChosenIgnoresOrder(a: seq<Rule>, b: seq<Rule>, minutes: int)
    requires DistinctThresholds(a) && forall r :: r in a <==> r in b
    ensures Chosen(a, minutes) == Chosen(b, minutes)
  {
    var i := FindBest(a, minutes);
    var j := FindBest(b, minutes);
    if i.Some? {
      assert a[i.value] in b;
    }
    if j.Some? {
      assert b[j.value] in a;
    }
  }

  /** The same rules in another order give the same policy, as long as no threshold occurs twice. */
  lemma PolicyIgnoresOrder(a: PolicySnapshot, b: PolicySnapshot, startsAt: Time, now: Time)
    requires b == a.(rules := b.rules) && DistinctThresholds(a.rules)
    requires forall r :: r in a.rules <==> r in b.rules
    ensures CancellationPolicy(a, startsAt, now) == CancellationPolicy(b, startsAt, now)
  {
    ChosenIgnoresOrder(a.rules, b.rules, MinutesBefore(startsAt, now));
  }

  function PercentOf(snapshot: PolicySnapshot, rule: Option<Rule>): int {
    ClampPercent(RefundBps(snapshot, rule))
  }

  /** Longer notice never refunds less: thresholds and percentages rise together, and no rule undercuts the default. */
  predicate MonotoneRules(snapshot: PolicySnapshot) {
    var rules := snapshot.rules;
    && (forall i, j :: 0 <= i < |rules| && 0 <= j < |rules| && Threshold(rules[i]) <= Threshold(rules[j]) ==>
          PercentOf(snapshot, Some(rules[i])) <= PercentOf(snapshot, Some(rules[j])))
    && ((forall i :: 0 <= i < |rules| ==> Threshold(rules[i]) > 0) ==>
          forall i :: 0 <= i < |rules| ==> PercentOf(snapshot, None) <= PercentOf(snapshot, Some(rules[i])))
  }

  /** As the start nears, the refund never rises. */
  ghost predicate NeverRises(snapshot: PolicySnapshot) {
    forall early: nat, late: nat :: late <= early ==>
      PercentOf(snapshot, Chosen(snapshot.rules, late)) <= PercentOf(snapshot, Chosen(snapshot.rules, early))
  }

  /** Stored thresholds are distinct and not negative: `normalizeTerms` lets nothing else through. */
  predicate Normalized(rules: seq<Rule>) {
    DistinctThresholds(rules) && forall k :: 0 <= k < |rules| ==> Threshold(rules[k]) >= 0
  }

  lemma RefundStep(snapshot: PolicySnapshot, early: nat, late: nat)
    requires Normalized(snapshot.rules) && MonotoneRules(snapshot) && late <= early
    ensures PercentOf(snapshot, Chosen(snapshot.rules, late)) <= PercentOf(snapshot, Chosen(snapshot.rules, early))
  {
    var i := FindBest(snapshot.rules, late);
    var j := FindBest(snapshot.rules, early);
  }

  lemma ThresholdChosen(rules: seq<Rule>, k: nat)
    requires Normalized(rules) && k < |rules|
    ensures Chosen(rules, Threshold(rules[k])) == Some(rules[k])
  {
    BestIsChosen(rules, Threshold(rules[k]), k);
  }

  lemma NoZeroChosen(rules: seq<Rule>)
    requires forall i :: 0 <= i < |rules| ==> Threshold(rules[i]) > 0
    ensures Chosen(rules, 0) == None
  {
    NoneChosen(rules, 0);
  }

  /** Refunds never rise as the start nears exactly when the snapshotted rules are monotone. */
  lemma RefundsNeverRise(snapshot: PolicySnapshot)
    requires Normalized(snapshot.rules)
    ensures NeverRises(snapshot) <==> MonotoneRules(snapshot)
  {
    var rules := snapshot.rules;
    if MonotoneRules(snapshot) {
      forall early: nat, late: nat | late <= early
        ensures PercentOf(snapshot, Chosen(rules, late)) <= PercentOf(snapshot, Chosen(rules, early))
      {
        RefundStep(snapshot, early, late);
      }
    }
    if NeverRises(snapshot) {
      forall i, j | 0 <= i < |rules| && 0 <= j < |rules| && Threshold(rules[i]) <= Threshold(rules[j])
        ensures PercentOf(snapshot, Some(rules[i])) <= PercentOf(snapshot, Some(rules[j]))
      {
        ThresholdChosen(rules, i);
        ThresholdChosen(rules, j);
      }
      if forall i :: 0 <= i < |rules| ==> Threshold(rules[i]) > 0 {
        NoZeroChosen(rules);
        forall i | 0 <= i < |rules|
          ensures PercentOf(snapshot, None) <= PercentOf(snapshot, Some(rules[i]))
        {
          ThresholdChosen(rules, i);
        }
      }
    }
  }

  /** Under monotone rules, cancelling later never refunds more. */
  lemma LaterRefundsNoMore(snapshot: PolicySnapshot, startsAt: Time, early: Time, late: Time)
    requires Normalized(snapshot.rules) && MonotoneRules(snapshot) && early <= late
    ensures CancellationPolicy(snapshot, startsAt, late).refundPercent <= CancellationPolicy(snapshot, startsAt, early).refundPercent
  {
    RefundStep(snapshot, MinutesBefore(startsAt, early), MinutesBefore(startsAt, late));
  }

  // ------------------------------------------------------- the refund and the ledger

  /** The amount a cancellation records. */
  function RefundAmount(gross: int, percent: int): int {
    RoundDiv(gross * percent, 100)
  }

  lemma GrossShare(s: Snapshot, percent: nat, at: Time, correlation: string, id: Id)
    requires s.partner.Some? && s.contract.Some? && s.gross >= 0
    ensures S.Scaled(L.Legs(L.BookingRows(s, at, correlation, id)), percent)[0] == RefundAmount(s.gross, percent)
  {
    var legs := L.Legs(L.BookingRows(s, at, correlation, id));
    S.ScaledTotal(legs, percent, Debit);
    S.OneDebitThreeCredits(legs, S.Scaled(legs, percent));
    S.OneDebitThreeCredits(legs, S.Amounts(legs));
  }

  /** The reversal of the gross, if the refund is not zero. */
  predicate GrossReversal(r: Row, original: Id, amount: int) {
    r.reverses == Some(original) && r.originalComponent == Some(Gross) && r.direction == Credit && r.amount == amount
  }

  lemma GrossReversed(originals: seq<Row>, amounts: seq<int>, at: Time, correlation: string, next: Id)
    requires |amounts| == |originals| > 0
    requires originals[0].component == Some(Gross) && originals[0].direction == Debit
    requires forall k :: 0 < k < |originals| ==> originals[k].component != Some(Gross)
    ensures var refund := L.ReversalRows(originals, amounts, at, correlation, next);
            && (amounts[0] != 0 ==> refund != [] && GrossReversal(refund[0], originals[0].id, amounts[0]))
            && (forall j :: 0 <= j < |refund| && refund[j].originalComponent == Some(Gross) ==> j == 0 && amounts[0] != 0)
  {
  }

  /**
   The ledger reverses exactly the refund that the cancellation records: when it is not
   zero the first reversal is that of the gross for that amount and the only one of the
   gross; when it is zero the gross is not reversed.
   */
  lemma RefundIsGrossReversal(s: Snapshot, percent: nat, at: Time, correlation: string, id: Id,
                              cancelledAt: Time, cancelCorrelation: string, next: Id)
    requires s.partner.Some? && s.contract.Some? && s.gross >= 0
    ensures var originals, amount := L.BookingRows(s, at, correlation, id), RefundAmount(s.gross, percent);
            var refund := L.ReversalRows(originals, S.Scaled(L.Legs(originals), percent), cancelledAt, cancelCorrelation, next);
            && (amount != 0 ==> refund != [] && GrossReversal(refund[0], id, amount))
            && (forall j :: 0 <= j < |refund| && refund[j].originalComponent == Some(Gross) ==> j == 0 && amount != 0)
  {
    var originals := L.BookingRows(s, at, correlation, id);
    GrossShare(s, percent, at, correlation, id);
    GrossReversed(originals, S.Scaled(L.Legs(originals), percent), cancelledAt, cancelCorrelation, next);
  }
}
