/**
 Contract versions: how terms are normalised, how saving a version ends the one before it,
 and why at any time exactly one version is in force.
 */
module Contracts {
  import opened Base
  import R = Refunds

  // ------------------------------------------------------------------------- terms

  const BPS := 10_000

  predicate BpsValid(n: int) {
    0 <= n <= BPS
  }

  datatype RuleInput = RuleInput(minMinutes: int, refundBps: int, release: bool)

  datatype TermsInput = TermsInput(
    commissionBps: int,
    taxBps: int,
    lagDays: int,
    resaleCutoff: Option<int>,
    cancellationAllowed: bool,
    defaultRefundBps: int,
    release: bool,
    rules: seq<RuleInput>
  )

  datatype Terms = Terms(
    rates: R.Rates,
    lagDays: nat,
    resaleCutoff: nat,
    cancellationAllowed: bool,
    defaultRefundBps: nat,
    release: bool,
    rules: seq<R.Rule>
  )

  function StoredRule(r: RuleInput): R.Rule {
    R.Rule(Some(r.minMinutes), Some(r.refundBps), Some(r.release))
  }

  function StoredRules(rules: seq<RuleInput>): (r: seq<R.Rule>)
    ensures |r| == |rules|
  {
    seq(|rules|, k requires 0 <= k < |rules| => StoredRule(rules[k]))
  }

  /** Rules that may be stored: at most fifty, each threshold once and not negative, every rate in range. */
  predicate RulesValid(rules: seq<RuleInput>) {
    && |rules| <= 50
    && (forall k :: 0 <= k < |rules| ==> rules[k].minMinutes >= 0 && BpsValid(rules[k].refundBps))
    && (forall i, j :: 0 <= i < j < |rules| ==> rules[i].minMinutes != rules[j].minMinutes)
  }

  predicate TermsValid(t: TermsInput) {
    && BpsValid(t.commissionBps) && BpsValid(t.taxBps) && t.commissionBps + t.taxBps <= BPS
    && t.lagDays >= 0 && (t.resaleCutoff.Some? ==> t.resaleCutoff.value >= 0)
    && BpsValid(t.defaultRefundBps) && RulesValid(t.rules)
    && (t.cancellationAllowed || (t.defaultRefundBps == 0 && !t.release && t.rules == []))
  }

  lemma SortKeepsLength(rules: seq<R.Rule>)
    ensures |R.SortedByThreshold(rules)| == |rules|
  {
    if rules != [] {
      SortKeepsLength(rules[1..]);
      InsertGrows(rules[0], R.SortedByThreshold(rules[1..]));
    }
  }

  lemma InsertGrows(r: R.Rule, sorted: seq<R.Rule>)
    ensures |R.Insert(r, sorted)| == |sorted| + 1
  {
  }

  lemma {:induction false} InsertDistinct(r: R.Rule, sorted: seq<R.Rule>)
    requires R.Descending(sorted) && R.DistinctThresholds(sorted)
    requires forall k :: 0 <= k < |sorted| ==> R.Threshold(sorted[k]) != R.Threshold(r)
    ensures R.DistinctThresholds(R.Insert(r, sorted))
  {
    if sorted != [] && R.Threshold(sorted[0]) > R.Threshold(r) {
      InsertDistinct(r, sorted[1..]);
      R.InsertSorted(r, sorted[1..]);
      var rest := R.Insert(r, sorted[1..]);
      forall j | 0 <= j < |rest|
        ensures R.Threshold(rest[j]) != R.Threshold(sorted[0])
      {
        assert rest[j] in rest;
        if rest[j] != r {
          var m :| 0 <= m < |sorted[1..]| && sorted[1..][m] == rest[j];
          assert sorted[m + 1] == rest[j];
        }
      }
    }
  }

  lemma {:induction false} SortDistinct(rules: seq<R.Rule>)
    requires R.DistinctThresholds(rules)
    ensures R.DistinctThresholds(R.SortedByThreshold(rules))
  {
    if rules != [] {
      var tail := R.SortedByThreshold(rules[1..]);
      SortDistinct(rules[1..]);
      R.SortSorts(rules[1..]);
      forall k | 0 <= k < |tail|
        ensures R.Threshold(tail[k]) != R.Threshold(rules[0])
      {
        assert tail[k] in rules[1..];
        var m :| 0 <= m < |rules[1..]| && rules[1..][m] == tail[k];
        assert rules[m + 1] == tail[k];
      }
      InsertDistinct(rules[0], tail);
    }
  }

  /** Valid rules are stored sorted by falling threshold, none lost, and in the form a cancellation relies on. */
  lemma StoredRulesNormalized(rules: seq<RuleInput>)
    requires RulesValid(rules)
    ensures var stored := R.SortedByThreshold(StoredRules(rules));
            R.Normalized(stored) && R.Descending(stored) && |stored| == |rules|
            && forall r :: r in stored <==> r in StoredRules(rules)
  {
    var stored := StoredRules(rules);
    R.SortSorts(stored);
    SortDistinct(stored);
    SortKeepsLength(stored);
    forall k | 0 <= k < |stored|
      ensures R.Threshold(R.SortedByThreshold(stored)[k]) >= 0
    {
      assert R.SortedByThreshold(stored)[k] in stored;
    }
  }

  /** The loop over the refund rules, with the set of thresholds met so far. */
  method NormalizeRules(rules: seq<RuleInput>) returns (stored: Option<seq<R.Rule>>)
    ensures stored.Some? <==> RulesValid(rules)
    ensures stored.Some? ==> stored.value == R.SortedByThreshold(StoredRules(rules)) && R.Normalized(stored.value)
  {
    if |rules| > 50 { return None; }
    var thresholds: set<int>, mapped := {}, [];
    for k := 0 to |rules|
      invariant forall m :: 0 <= m < k ==> rules[m].minMinutes >= 0 && BpsValid(rules[m].refundBps) && rules[m].minMinutes in thresholds
      invariant forall t :: t in thresholds ==> exists m :: 0 <= m < k && rules[m].minMinutes == t
      invariant forall i, j :: 0 <= i < j < k ==> rules[i].minMinutes != rules[j].minMinutes
      invariant mapped == StoredRules(rules[..k])
    {
      var rule := rules[k];
      if rule.minMinutes < 0 || rule.minMinutes in thresholds || !BpsValid(rule.refundBps) {
        return None;
      }
      thresholds := thresholds + {rule.minMinutes};
      mapped := mapped + [StoredRule(rule)];
    }
    assert rules[..|rules|] == rules;
    StoredRulesNormalized(rules);
    return Some(R.SortedByThreshold(mapped));
  }

  /** A stored rule says what the rule it comes from says. */
  predicate RuleStoredAs(stored: R.Rule, rule: RuleInput) {
    stored.minMinutes == Some(rule.minMinutes) && stored.refundBps == Some(rule.refundBps) && stored.release == Some(rule.release)
  }

  /** The terms stored say what was asked for, field by field; no cutoff is a cutoff of zero minutes. */
  predicate StoredAs(terms: Terms, t: TermsInput) {
    && terms.rates.commissionBps == t.commissionBps && terms.rates.taxBps == t.taxBps && terms.lagDays == t.lagDays
    && (t.resaleCutoff.Some? ==> terms.resaleCutoff == t.resaleCutoff.value) && (t.resaleCutoff == None ==> terms.resaleCutoff == 0)
    && terms.cancellationAllowed == t.cancellationAllowed && terms.defaultRefundBps == t.defaultRefundBps && terms.release == t.release
    && |terms.rules| == |t.rules|
    && (forall k :: 0 <= k < |t.rules| ==> HasStored(terms.rules, t.rules[k]))
    && (forall k :: 0 <= k < |terms.rules| ==> StoredFromOne(terms.rules[k], t.rules))
  }

  predicate HasStored(stored: seq<R.Rule>, rule: RuleInput) {
    exists j :: 0 <= j < |stored| && RuleStoredAs(stored[j], rule)
  }

  predicate StoredFromOne(stored: R.Rule, rules: seq<RuleInput>) {
    exists j :: 0 <= j < |rules| && RuleStoredAs(stored, rules[j])
  }

  lemma RulesStoredAs(rules: seq<RuleInput>)
    requires RulesValid(rules)
    ensures var stored := R.SortedByThreshold(StoredRules(rules));
            && |stored| == |rules|
            && (forall k :: 0 <= k < |rules| ==> HasStored(stored, rules[k]))
            && (forall k :: 0 <= k < |stored| ==> StoredFromOne(stored[k], rules))
  {
    var stored := R.SortedByThreshold(StoredRules(rules));
    StoredRulesNormalized(rules);
    forall k | 0 <= k < |rules|
      ensures HasStored(stored, rules[k])
    {
      assert StoredRules(rules)[k] in stored;
      var j :| 0 <= j < |stored| && stored[j] == StoredRules(rules)[k];
      assert RuleStoredAs(stored[j], rules[k]);
    }
    forall k | 0 <= k < |stored|
      ensures StoredFromOne(stored[k], rules)
    {
      assert stored[k] in StoredRules(rules);
      var j :| 0 <= j < |rules| && StoredRules(rules)[j] == stored[k];
      assert RuleStoredAs(stored[k], rules[j]);
    }
  }

  /** `normalizeTerms`. */
  method NormalizeTerms(t: TermsInput) returns (terms: Option<Terms>)
    ensures terms.Some? <==> TermsValid(t)
    ensures terms.Some? ==> R.RatesValid(terms.value.rates) && R.Normalized(terms.value.rules)
                            && terms.value.rules == R.SortedByThreshold(StoredRules(t.rules))
                            && StoredAs(terms.value, t)
  {
    if !BpsValid(t.commissionBps) || !BpsValid(t.taxBps) || t.commissionBps + t.taxBps > BPS { return None; }
    if t.lagDays < 0 || (t.resaleCutoff.Some? && t.resaleCutoff.value < 0) || !BpsValid(t.defaultRefundBps) { return None; }
    var rules := NormalizeRules(t.rules);
    if rules == None { return None; }
    if !t.cancellationAllowed && (t.defaultRefundBps != 0 || t.release || t.rules != []) { return None; }
    RulesStoredAs(t.rules);
    return Some(Terms(R.Rates(t.commissionBps, t.taxBps), t.lagDays, R.OrElse(t.resaleCutoff, 0), t.cancellationAllowed,
                      t.defaultRefundBps, t.release, rules.value));
  }

  // ---------------------------------------------------------------------- the chain

  datatype Pair = Pair(partner: Id, venue: Id)

  datatype Version = Version(pair: Pair, termsVersion: nat, effectiveFrom: Time, effectiveTo: Option<Time>,
                             terms: Terms)

  datatype ContractError = EffectiveDateConflict | VersionConflict

  /** The index of the version that starts last. */
  function Latest(versions: seq<Version>, pair: Pair): (k: Option<nat>)
    ensures k.Some? ==> k.value < |versions| && versions[k.value].pair == pair
  {
    if versions == [] then None
    else
      var n := |versions| - 1;
      var rest := Latest(versions[..n], pair);
      if versions[n].pair == pair && (rest == None || versions[rest.value].effectiveFrom < versions[n].effectiveFrom) then Some(n) else rest
  }

  predicate InForce(v: Version, at: Time) {
    v.effectiveFrom <= at && (v.effectiveTo == None || v.effectiveTo.value > at)
  }

  /** `findEffective`: of the versions in force, the one that starts last. */
  function Effective(versions: seq<Version>, pair: Pair, at: Time): Option<Version> {
    if versions == [] then None
    else
      var v := versions[|versions| - 1];
      var rest := Effective(versions[..|versions| - 1], pair, at);
      if v.pair == pair && InForce(v, at) && (rest == None || rest.value.effectiveFrom < v.effectiveFrom) then Some(v) else rest
  }

  /** The transaction of `saveVersion`: end the latest version where the new one starts, and insert it. */
  function Save(versions: seq<Version>, pair: Pair, from: Time, terms: Terms): Result<seq<Version>, ContractError> {
    match Latest(versions, pair)
    case None => Ok(versions + [Version(pair, 1, from, None, terms)])
    case Some(k) =>
      var latest := versions[k];
      if from <= latest.effectiveFrom then Err(EffectiveDateConflict)
      else if latest.effectiveTo.Some? then Err(VersionConflict)
      else Ok(versions[k := latest.(effectiveTo := Some(from))] + [Version(pair, latest.termsVersion + 1, from, None, terms)])
  }

  function OfPair(versions: seq<Version>, pair: Pair): seq<Version> {
    if versions == [] then []
    else
      var rest := OfPair(versions[..|versions| - 1], pair);
      if versions[|versions| - 1].pair == pair then rest + [versions[|versions| - 1]] else rest
  }

  /** Numbered from one, each ending where the next begins, only the last without an end. */
  predicate Tiles(chain: seq<Version>) {
    && (forall k :: 0 <= k < |chain| ==> chain[k].termsVersion == k + 1)
    && (forall k :: 0 <= k < |chain| - 1 ==> chain[k].effectiveTo == Some(chain[k + 1].effectiveFrom))
    && Rising(chain)
    && (chain != [] ==> chain[|chain| - 1].effectiveTo == None)
  }

  predicate Rising(chain: seq<Version>) {
    forall i, j :: 0 <= i < j < |chain| ==> chain[i].effectiveFrom < chain[j].effectiveFrom
  }

  /** In insertion order of rising starts, the latest version is the last of its pair. */
  lemma {:induction false} LatestIsLast(versions: seq<Version>, pair: Pair)
    requires Rising(OfPair(versions, pair))
    ensures var chain := OfPair(versions, pair);
            match Latest(versions, pair)
            case None => chain == []
            case Some(k) =>
              chain != [] && versions[k] == chain[|chain| - 1]
              && forall m :: k < m < |versions| ==> versions[m].pair != pair
  {
    if versions != [] {
      var n := |versions| - 1;
      if versions[n].pair == pair {
        RisingPrefix(OfPair(versions[..n], pair), versions[n]);
      }
      LatestIsLast(versions[..n], pair);
    }
  }

  lemma RisingPrefix(chain: seq<Version>, v: Version)
    requires Rising(chain + [v])
    ensures Rising(chain) && (chain != [] ==> chain[|chain| - 1].effectiveFrom < v.effectiveFrom)
  {
    var all := chain + [v];
    assert all[|chain|] == v;
    assert forall k :: 0 <= k < |chain| ==> all[k] == chain[k];
  }

  lemma {:induction false} ReplaceLast(versions: seq<Version>, k: nat, v: Version, pair: Pair)
    requires k < |versions| && v.pair == versions[k].pair
    requires forall m :: k < m < |versions| ==> versions[m].pair != versions[k].pair
    ensures var chain := OfPair(versions, pair);
            OfPair(versions[k := v], pair)
            == if pair == v.pair && chain != [] then chain[|chain| - 1 := v] else chain
    ensures pair == v.pair ==> OfPair(versions, pair) != []
  {
    var n := |versions| - 1;
    if k == n {
      assert versions[k := v][..n] == versions[..n];
    } else {
      ReplaceLast(versions[..n], k, v, pair);
      assert versions[k := v][..n] == versions[..n][k := v];
    }
  }

  lemma OfPairSnoc(versions: seq<Version>, v: Version, pair: Pair)
    ensures OfPair(versions + [v], pair) == if v.pair == pair then OfPair(versions, pair) + [v] else OfPair(versions, pair)
  {
  }

  ghost predicate AllTile(versions: seq<Version>) {
    forall pair: Pair :: Tiles(OfPair(versions, pair))
  }

  /** A chain grows at its end: the last version is closed where the next one starts. */
  lemma ChainGrows(chain: seq<Version>, from: Time, terms: Terms, pair: Pair)
    requires Tiles(chain) && chain != [] && from > chain[|chain| - 1].effectiveFrom
    ensures var last := |chain| - 1;
            Tiles(chain[last := chain[last].(effectiveTo := Some(from))] + [Version(pair, |chain| + 1, from, None, terms)])
  {
  }

  /** What saving does to the chain of any pair. */
  lemma SaveIs(versions: seq<Version>, pair: Pair, from: Time, terms: Terms, other: Pair)
    requires Tiles(OfPair(versions, pair)) && Save(versions, pair, from, terms).Ok?
    ensures var chain, after := OfPair(versions, pair), OfPair(Save(versions, pair, from, terms).value, other);
            if other != pair then after == OfPair(versions, other)
            else if chain == [] then after == [Version(pair, 1, from, None, terms)]
            else from > chain[|chain| - 1].effectiveFrom
                 && after == chain[|chain| - 1 := chain[|chain| - 1].(effectiveTo := Some(from))] + [Version(pair, |chain| + 1, from, None, terms)]
  {
    LatestIsLast(versions, pair);
    match Latest(versions, pair)
    case None => OfPairSnoc(versions, Version(pair, 1, from, None, terms), other);
    case Some(k) =>
      var closed := versions[k].(effectiveTo := Some(from));
      ReplaceLast(versions, k, closed, other);
      OfPairSnoc(versions[k := closed], Version(pair, versions[k].termsVersion + 1, from, None, terms), other);
  }

  lemma SaveKeeps(versions: seq<Version>, pair: Pair, from: Time, terms: Terms)
    requires AllTile(versions) && Save(versions, pair, from, terms).Ok?
    ensures AllTile(Save(versions, pair, from, terms).value)
  {
    var chain, after := OfPair(versions, pair), Save(versions, pair, from, terms).value;
    assert Tiles(chain);
    forall other: Pair
      ensures Tiles(OfPair(after, other))
    {
      assert Tiles(OfPair(versions, other));
      SaveIs(versions, pair, from, terms, other);
      if other == pair && chain != [] {
        ChainGrows(chain, from, terms, pair);
      }
    }
  }

  /** A version is saved exactly when it starts after the latest one: ending that one never conflicts. */
  lemma SaveSucceeds(versions: seq<Version>, pair: Pair, from: Time, terms: Terms)
    requires AllTile(versions)
    ensures var chain := OfPair(versions, pair);
            Save(versions, pair, from, terms).Ok? <==> chain == [] || from > chain[|chain| - 1].effectiveFrom
  {
    assert Tiles(OfPair(versions, pair));
    LatestIsLast(versions, pair);
  }

  /** A version as it is saved: numbered after those before it, open-ended, from where it was asked to start. */
  predicate SavedAs(v: Version, pair: Pair, number: nat, from: Time, terms: Terms) {
    v.pair == pair && v.termsVersion == number && v.effectiveFrom == from && v.effectiveTo == None && v.terms == terms
  }

  /** `after` is `before` with the open version of the pair ended at `from`, and nothing else changed. */
  predicate EndedAt(before: seq<Version>, after: seq<Version>, pair: Pair, from: Time) {
    && |after| == |before|
    && forall k :: 0 <= k < |before| ==>
         after[k] == if before[k].pair == pair && before[k].effectiveTo == None then before[k].(effectiveTo := Some(from)) else before[k]
  }

  lemma {:induction false} OpenIsLast(versions: seq<Version>, pair: Pair, k: nat)
    requires Tiles(OfPair(versions, pair)) && k < |versions| && versions[k].pair == pair
    requires forall m :: k < m < |versions| ==> versions[m].pair != pair
    ensures forall m :: 0 <= m < |versions| && versions[m].pair == pair ==> (versions[m].effectiveTo == None <==> m == k)
  {
    var n := |versions| - 1;
    var chain := OfPair(versions, pair);
    if k < n {
      OpenIsLast(versions[..n], pair, k);
      assert forall m :: 0 <= m < n ==> versions[..n][m] == versions[m];
    } else {
      forall m | 0 <= m < n && versions[m].pair == pair
        ensures versions[m].effectiveTo.Some?
      {
        var j := OfPairHas(versions[..n], pair, m);
        assert chain[j] == versions[m] && chain[j].effectiveTo == Some(chain[j + 1].effectiveFrom);
      }
    }
  }

  lemma {:induction false} OfPairHas(versions: seq<Version>, pair: Pair, k: nat) returns (j: nat)
    requires k < |versions| && versions[k].pair == pair
    ensures j < |OfPair(versions, pair)| && OfPair(versions, pair)[j] == versions[k]
  {
    var n := |versions| - 1;
    if k == n {
      j := |OfPair(versions, pair)| - 1;
    } else {
      j := OfPairHas(versions[..n], pair, k);
    }
  }

  /** Saving adds one open version with the terms asked for, ends the open one before it where it starts, and touches no other. */
  lemma SaveLeaves(versions: seq<Version>, pair: Pair, from: Time, terms: Terms)
    requires AllTile(versions) && Save(versions, pair, from, terms).Ok?
    ensures var after, n := Save(versions, pair, from, terms).value, |versions|;
            && |after| == n + 1 && SavedAs(after[n], pair, |OfPair(versions, pair)| + 1, from, terms)
            && EndedAt(versions, after[..n], pair, from)
  {
    assert Tiles(OfPair(versions, pair));
    LatestIsLast(versions, pair);
    match Latest(versions, pair)
    case None =>
      forall k | 0 <= k < |versions|
        ensures versions[k].pair != pair
      {
        if versions[k].pair == pair {
          var j := OfPairHas(versions, pair, k);
        }
      }
    case Some(k) =>
      OpenIsLast(versions, pair, k);
  }

  datatype Call = Call(pair: Pair, from: Time, terms: Terms)

  /** A call that fails changes nothing. */
  function Run(calls: seq<Call>): seq<Version> {
    if calls == [] then []
    else
      var before := Run(calls[..|calls| - 1]);
      var c := calls[|calls| - 1];
      match Save(before, c.pair, c.from, c.terms)
      case Ok(after) => after
      case Err(_) => before
  }

  /** After any calls, every pair's versions tile time and count up from one. */
  lemma {:induction false} RunTiles(calls: seq<Call>)
    ensures AllTile(Run(calls))
  {
    if calls != [] {
      var before, c := Run(calls[..|calls| - 1]), calls[|calls| - 1];
      RunTiles(calls[..|calls| - 1]);
      if Save(before, c.pair, c.from, c.terms).Ok? {
        SaveKeeps(before, c.pair, c.from, c.terms);
      }
    } else {
      forall pair: Pair
        ensures Tiles(OfPair([], pair))
      {
      }
    }
  }

  // --------------------------------------------------------------- what is in force

  /** The last version that has started by `at`. */
  lemma {:induction false} StartedBy(chain: seq<Version>, at: Time) returns (k: nat)
    requires Rising(chain) && chain != [] && chain[0].effectiveFrom <= at
    ensures k < |chain| && chain[k].effectiveFrom <= at
    ensures k + 1 < |chain| ==> chain[k + 1].effectiveFrom > at
  {
    var n := |chain| - 1;
    if chain[n].effectiveFrom <= at {
      k := n;
    } else {
      k := StartedBy(chain[..n], at);
    }
  }

  /** From the first start on, exactly one version of a chain is in force; before it, none. */
  lemma ExactlyOneInForce(chain: seq<Version>, at: Time)
    requires Tiles(chain) && chain != []
    ensures (exists k :: 0 <= k < |chain| && InForce(chain[k], at)) <==> chain[0].effectiveFrom <= at
    ensures forall i, j :: 0 <= i < j < |chain| ==> !(InForce(chain[i], at) && InForce(chain[j], at))
  {
    if chain[0].effectiveFrom <= at {
      var k := StartedBy(chain, at);
      assert InForce(chain[k], at);
    }
    forall i, j | 0 <= i < j < |chain|
      ensures !(InForce(chain[i], at) && InForce(chain[j], at))
    {
      assert chain[i].effectiveTo == Some(chain[i + 1].effectiveFrom);
    }
  }

  /** `findEffective` gives a version of the pair in force at that time, and none only when there is none. */
  lemma {:induction false} EffectiveIn(versions: seq<Version>, pair: Pair, at: Time)
    ensures var chain, v := OfPair(versions, pair), Effective(versions, pair, at);
            && (v.Some? ==> v.value in chain && InForce(v.value, at))
            && (v == None ==> forall k :: 0 <= k < |chain| ==> !InForce(chain[k], at))
  {
    if versions != [] {
      var before, chain := OfPair(versions[..|versions| - 1], pair), OfPair(versions, pair);
      EffectiveIn(versions[..|versions| - 1], pair, at);
      assert forall k :: 0 <= k < |before| ==> chain[k] == before[k];
    }
  }

  /** After any calls: from its first start on, a pair has exactly one version in force, and it is found. */
  lemma EffectiveExact(calls: seq<Call>, pair: Pair, at: Time, k: nat)
    requires var chain := OfPair(Run(calls), pair); k < |chain| && chain[0].effectiveFrom <= at
    ensures var chain := OfPair(Run(calls), pair);
            Effective(Run(calls), pair, at) == Some(chain[k]) <==> InForce(chain[k], at)
  {
    var chain := OfPair(Run(calls), pair);
    RunTiles(calls);
    assert Tiles(chain);
    ExactlyOneInForce(chain, at);
    EffectiveIn(Run(calls), pair, at);
    var v := Effective(Run(calls), pair, at);
    var m :| 0 <= m < |chain| && chain[m] == v.value;
    if InForce(chain[k], at) {
      assert m == k;
    }
  }

  /** The version found for a time is the one that has started by then and whose successor, if any, has not. */
  lemma FoundByStart(calls: seq<Call>, pair: Pair, at: Time, k: nat)
    requires k < |OfPair(Run(calls), pair)|
    ensures var chain := OfPair(Run(calls), pair);
            Effective(Run(calls), pair, at) == Some(chain[k])
            <==> chain[k].effectiveFrom <= at && (k + 1 < |chain| ==> at < chain[k + 1].effectiveFrom)
  {
    var chain := OfPair(Run(calls), pair);
    RunTiles(calls);
    assert Tiles(chain);
    if chain[0].effectiveFrom <= at {
      EffectiveExact(calls, pair, at, k);
    } else {
      ExactlyOneInForce(chain, at);
      EffectiveIn(Run(calls), pair, at);
    }
  }

  /** What both chains have in force at a time before `from` is the same version, but for its end. */
  predicate SameTerms(a: Option<Version>, b: Option<Version>) {
    match a
    case None => b == None
    case Some(v) => b.Some? && b.value == v.(effectiveTo := b.value.effectiveTo)
  }

  /** Saving a new version never changes which terms applied before it starts. */
  lemma PastStays(versions: seq<Version>, pair: Pair, from: Time, terms: Terms, at: Time)
    requires AllTile(versions) && Save(versions, pair, from, terms).Ok? && at < from
    ensures SameTerms(Effective(versions, pair, at), Effective(Save(versions, pair, from, terms).value, pair, at))
  {
    var after := Save(versions, pair, from, terms).value;
    var chain, grown := OfPair(versions, pair), OfPair(after, pair);
    assert Tiles(chain);
    SaveIs(versions, pair, from, terms, pair);
    SaveKeeps(versions, pair, from, terms);
    assert Tiles(grown);
    EffectiveIn(versions, pair, at);
    EffectiveIn(after, pair, at);
    InForceBefore(chain, grown, from, at);
    if chain != [] {
      ExactlyOneInForce(chain, at);
      ExactlyOneInForce(grown, at);
    }
  }

  lemma InForceBefore(chain: seq<Version>, grown: seq<Version>, from: Time, at: Time)
    requires at < from && |grown| == |chain| + 1 && grown[|chain|].effectiveFrom == from
    requires Tiles(chain) && Tiles(grown)
    requires forall k :: 0 <= k < |chain| ==> grown[k] == chain[k].(effectiveTo := grown[k].effectiveTo)
    ensures forall k :: 0 <= k < |chain| ==> (InForce(chain[k], at) <==> InForce(grown[k], at))
    ensures !InForce(grown[|chain|], at)
  {
    forall k | 0 <= k < |chain|
      ensures InForce(chain[k], at) <==> InForce(grown[k], at)
    {
      assert grown[k].effectiveTo == Some(grown[k + 1].effectiveFrom);
      assert k < |chain| - 1 ==> chain[k].effectiveTo == Some(chain[k + 1].effectiveFrom);
    }
  }

  // ---------------------------------------------------------------------- the store

  class ContractStore {
    var versions: seq<Version>

    constructor ()
      ensures versions == []
    {
      versions := [];
    }

    /** `findLatest`. */
    method FindLatest(pair: Pair) returns (latest: Option<nat>)
      ensures latest == Latest(versions, pair)
    {
      latest := None;
      for k := 0 to |versions|
        invariant latest == Latest(versions[..k], pair)
      {
        assert versions[..k + 1][..k] == versions[..k];
        if versions[k].pair == pair && (latest == None || versions[latest.value].effectiveFrom < versions[k].effectiveFrom) {
          latest := Some(k);
        }
      }
      assert versions[..|versions|] == versions;
    }

    /** `findEffective`. */
    method FindEffective(pair: Pair, at: Time) returns (effective: Option<Version>)
      ensures effective == Effective(versions, pair, at)
    {
      effective := None;
      for k := 0 to |versions|
        invariant effective == Effective(versions[..k], pair, at)
      {
        assert versions[..k + 1][..k] == versions[..k];
        var v := versions[k];
        if v.pair == pair && InForce(v, at) && (effective == None || effective.value.effectiveFrom < v.effectiveFrom) {
          effective := Some(v);
        }
      }
      assert versions[..|versions|] == versions;
    }

    /** `supersede`: end a version that has no end yet. */
    method Supersede(k: nat, effectiveTo: Time) returns (superseded: bool)
      requires k < |versions|
      modifies this
      ensures superseded <==> old(versions)[k].effectiveTo == None
      ensures versions == if superseded then old(versions)[k := old(versions)[k].(effectiveTo := Some(effectiveTo))] else old(versions)
    {
      superseded := versions[k].effectiveTo == None;
      if superseded {
        versions := versions[k := versions[k].(effectiveTo := Some(effectiveTo))];
      }
    }

    /** The transaction of `saveVersion`. */
    method SaveVersion(pair: Pair, from: Time, terms: Terms) returns (error: Option<ContractError>)
      modifies this
      ensures var r := Save(old(versions), pair, from, terms);
              if r.Ok? then error == None && versions == r.value else error == Some(r.error) && versions == old(versions)
    {
      var latest := FindLatest(pair);
      var number := 1;
      if latest.Some? {
        if from <= versions[latest.value].effectiveFrom { return Some(EffectiveDateConflict); }
        number := versions[latest.value].termsVersion + 1;
        var superseded := Supersede(latest.value, from);
        if !superseded { return Some(VersionConflict); }
      }
      versions := versions + [Version(pair, number, from, None, terms)];
      return None;
    }
  }
}
