/**
 The largest-remainder split of a refund over the rows of a journal
 (`scaledBalancedAmounts`), once for the debits and once for the credits.
 */
module Split {
  import opened Money
  import opened LedgerTypes
  import D = Doubles

  /** What the split reads of a ledger row. */
  datatype Leg = Leg(direction: Direction, amount: nat)

  /** `remainder` is the key a share is sorted by. */
  datatype Share = Share(index: nat, amount: nat, remainder: nat)

  function Product(leg: Leg, percent: nat): nat {
    leg.amount * percent
  }

  function FloorOf(leg: Leg, percent: nat): nat {
    Product(leg, percent) / 100
  }

  function RemainderOf(leg: Leg, percent: nat): nat {
    Product(leg, percent) % 100
  }

  /** Sum of `values` over the legs of one direction. */
  function DirSum(legs: seq<Leg>, values: seq<int>, d: Direction): int
    requires |legs| == |values|
  {
    if legs == [] then 0
    else
      var n := |legs| - 1;
      DirSum(legs[..n], values[..n], d) + if legs[n].direction == d then values[n] else 0
  }

  function Amounts(legs: seq<Leg>): (r: seq<int>)
    ensures |r| == |legs|
  {
    seq(|legs|, i requires 0 <= i < |legs| => legs[i].amount)
  }

  function Floors(legs: seq<Leg>, percent: nat): (r: seq<int>)
    ensures |r| == |legs|
  {
    seq(|legs|, i requires 0 <= i < |legs| => FloorOf(legs[i], percent))
  }

  function Target(legs: seq<Leg>, percent: nat, d: Direction): int {
    RoundDiv(DirSum(legs, Amounts(legs), d) * percent, 100)
  }

  // ---------------------------------------------------------------- the rule

  /** `i` is served before `j`: the larger key first, then the earlier row. */
  predicate Before(keys: seq<nat>, i: nat, j: nat)
    requires i < |keys| && j < |keys|
  {
    keys[i] > keys[j] || (keys[i] == keys[j] && i < j)
  }

  /** One key for each row, zero exactly for rows without a remainder. */
  predicate Graded(legs: seq<Leg>, percent: nat, keys: seq<nat>) {
    |keys| == |legs| && forall i :: 0 <= i < |legs| ==> (keys[i] == 0 <==> RemainderOf(legs[i], percent) == 0)
  }

  predicate HasExtra(legs: seq<Leg>, percent: nat, r: seq<int>, i: nat)
    requires |r| == |legs| && i < |legs|
  {
    r[i] == FloorOf(legs[i], percent) + 1
  }

  /**
   What the split promises, without saying how it is computed: each direction sums
   to its rounded target, a row gets its floor or, only when it has a remainder, one
   unit more, and units go to the rows that come first in the order of their keys.
   */
  ghost predicate Fair(legs: seq<Leg>, percent: nat, keys: seq<nat>, r: seq<int>)
    requires |keys| == |legs|
  {
    && |r| == |legs|
    && (forall d :: DirSum(legs, r, d) == Target(legs, percent, d))
    && (forall i :: 0 <= i < |legs| ==>
          r[i] == FloorOf(legs[i], percent)
          || (RemainderOf(legs[i], percent) > 0 && HasExtra(legs, percent, r, i)))
    && (forall i, j :: 0 <= i < |legs| && 0 <= j < |legs| && legs[i].direction == legs[j].direction
          && HasExtra(legs, percent, r, i) && !HasExtra(legs, percent, r, j)
          ==> Before(keys, i, j))
  }

  lemma {:induction false} DirSumStrict(legs: seq<Leg>, a: seq<int>, b: seq<int>, d: Direction)
    requires |a| == |b| == |legs|
    requires forall i :: 0 <= i < |legs| && legs[i].direction == d ==> a[i] <= b[i]
    ensures DirSum(legs, a, d) <= DirSum(legs, b, d)
    ensures forall i :: 0 <= i < |legs| && legs[i].direction == d && a[i] < b[i]
              ==> DirSum(legs, a, d) < DirSum(legs, b, d)
  {
    if legs != [] {
      var n := |legs| - 1;
      DirSumStrict(legs[..n], a[..n], b[..n], d);
      forall i | 0 <= i < |legs| && legs[i].direction == d && a[i] < b[i]
        ensures DirSum(legs, a, d) < DirSum(legs, b, d)
      {
        if i < n {
          assert legs[..n][i].direction == d && a[..n][i] < b[..n][i];
        }
      }
    }
  }

  /** A row that got less in `a` than in `b` is paid for by a row of the same direction that got more. */
  lemma TradeOff(legs: seq<Leg>, a: seq<int>, b: seq<int>, i: nat) returns (j: nat)
    requires |a| == |b| == |legs| && i < |legs| && a[i] < b[i]
    requires DirSum(legs, a, legs[i].direction) == DirSum(legs, b, legs[i].direction)
    ensures j < |legs| && legs[j].direction == legs[i].direction && a[j] > b[j]
  {
    var d := legs[i].direction;
    if forall j :: 0 <= j < |legs| && legs[j].direction == d ==> a[j] <= b[j] {
      DirSumStrict(legs, a, b, d);
    }
    j :| 0 <= j < |legs| && legs[j].direction == d && a[j] > b[j];
  }

  /** The rule leaves no freedom: it determines the split. */
  lemma FairIsUnique(legs: seq<Leg>, percent: nat, keys: seq<nat>, a: seq<int>, b: seq<int>)
    requires |keys| == |legs|
    requires Fair(legs, percent, keys, a) && Fair(legs, percent, keys, b)
    ensures a == b
  {
    forall i | 0 <= i < |legs|
      ensures a[i] >= b[i] && b[i] >= a[i]
    {
      FairNotLess(legs, percent, keys, a, b, i);
      FairNotLess(legs, percent, keys, b, a, i);
    }
  }

  lemma FairNotLess(legs: seq<Leg>, percent: nat, keys: seq<nat>, a: seq<int>, b: seq<int>, i: nat)
    requires |keys| == |legs|
    requires Fair(legs, percent, keys, a) && Fair(legs, percent, keys, b) && i < |legs|
    ensures a[i] >= b[i]
  {
    if a[i] < b[i] {
      var j := TradeOff(legs, a, b, i);
      NotBothFirst(legs, percent, keys, a, b, i, j);
    }
  }

  /** Of two rows of one direction only one comes first, so no two fair splits serve one of them each. */
  lemma NotBothFirst(legs: seq<Leg>, percent: nat, keys: seq<nat>, a: seq<int>, b: seq<int>, i: nat, j: nat)
    requires |keys| == |legs|
    requires Fair(legs, percent, keys, a) && Fair(legs, percent, keys, b)
    requires i < |legs| && j < |legs| && legs[i].direction == legs[j].direction
    ensures !(a[i] < b[i] && a[j] > b[j])
  {
  }

  /** No row is given back more than it holds, and at 100 percent every row is given back exactly. */
  lemma FairBounds(legs: seq<Leg>, percent: nat, keys: seq<nat>, r: seq<int>, i: nat)
    requires |keys| == |legs|
    requires Fair(legs, percent, keys, r) && percent <= 100 && i < |legs|
    ensures 0 <= r[i] <= legs[i].amount
    ensures 100 * (r[i] - 1) < Product(legs[i], percent) < 100 * (r[i] + 1)
    ensures percent == 100 ==> r[i] == legs[i].amount
  {
    ProductBound(legs[i].amount, percent);
  }

  lemma ProductBound(a: nat, percent: nat)
    requires percent <= 100
    ensures a * percent <= 100 * a && (percent == 100 ==> a * percent == 100 * a)
  {
  }

  // ----------------------------------------------------- the greedy algorithm

  predicate Distinct(s: seq<Share>) {
    forall k, m :: 0 <= k < m < |s| ==> s[k].index != s[m].index
  }

  /** `s` lists shares of direction `d`. */
  predicate Lists(legs: seq<Leg>, percent: nat, keys: seq<nat>, d: Direction, s: seq<Share>)
    requires |keys| == |legs|
  {
    forall x :: x in s ==> x.index < |legs| && legs[x.index].direction == d && x == ShareOf(legs, percent, keys, x.index)
  }

  function SharesFrom(legs: seq<Leg>, percent: nat, keys: seq<nat>, d: Direction): (r: seq<Share>)
    requires |keys| == |legs|
    ensures Lists(legs, percent, keys, d, r) && Distinct(r)
    ensures forall i :: 0 <= i < |legs| && legs[i].direction == d ==> ShareOf(legs, percent, keys, i) in r
  {
    if legs == [] then []
    else
      var n := |legs| - 1;
      var rest := SharesFrom(legs[..n], percent, keys[..n], d);
      assert forall i :: 0 <= i < n ==> ShareOf(legs[..n], percent, keys[..n], i) == ShareOf(legs, percent, keys, i);
      if legs[n].direction == d then rest + [ShareOf(legs, percent, keys, n)] else rest
  }

  function ShareOf(legs: seq<Leg>, percent: nat, keys: seq<nat>, i: nat): Share
    requires |keys| == |legs|
    requires i < |legs|
  {
    Share(i, FloorOf(legs[i], percent), keys[i])
  }

  /** The comparison the shares are sorted with. */
  predicate Less(a: Share, b: Share) {
    a.remainder > b.remainder || (a.remainder == b.remainder && a.index < b.index)
  }

  predicate Sorted(s: seq<Share>) {
    forall k, m :: 0 <= k < m < |s| ==> Less(s[k], s[m])
  }

  function Insert(x: Share, s: seq<Share>): (r: seq<Share>)
    requires Sorted(s) && forall y :: y in s ==> y.index != x.index
    ensures Sorted(r) && forall y :: y in r <==> y == x || y in s
  {
    if s == [] then [x]
    else if Less(x, s[0]) then [x] + s
    else
      assert s[0] in s && Less(s[0], x);
      assert forall k :: 0 <= k < |s| - 1 ==> s[1..][k] == s[k + 1] && Less(s[0], s[1..][k]);
      assert forall y :: y in s[1..] ==> Less(s[0], y);
      var rest := Insert(x, s[1..]);
      assert forall k :: 0 <= k < |rest| ==> rest[k] in rest && Less(s[0], rest[k]);
      [s[0]] + rest
  }

  function Sort(s: seq<Share>): (r: seq<Share>)
    requires Distinct(s)
    ensures Sorted(r) && forall y :: y in r <==> y in s
  {
    if s == [] then []
    else Insert(s[0], Sort(s[1..]))
  }

  /** The shares of one direction, in the order they are served. */
  function Queue(legs: seq<Leg>, percent: nat, keys: seq<nat>, d: Direction): (r: seq<Share>)
    requires |keys| == |legs|
    ensures Sorted(r) && Lists(legs, percent, keys, d, r)
    ensures forall i :: 0 <= i < |legs| && legs[i].direction == d ==> ShareOf(legs, percent, keys, i) in r
  {
    Sort(SharesFrom(legs, percent, keys, d))
  }

  /** Units left over after every row got its floor: the source's `remaining`. */
  function Leftover(legs: seq<Leg>, percent: nat, d: Direction): int {
    Target(legs, percent, d) - DirSum(legs, Floors(legs, percent), d)
  }

  // ------------------------------------------------- why the greedy loop is fair

  predicate Within(s: seq<Share>, n: nat) {
    forall x :: x in s ==> x.index < n
  }

  ghost function ListSum(s: seq<Share>, values: seq<int>): int
    requires Within(s, |values|)
  {
    if s == [] then 0
    else values[s[0].index] + ListSum(s[1..], values)
  }

  /** `q` lists every leg of direction `d` once, in any order. */
  predicate Enumerates(legs: seq<Leg>, percent: nat, keys: seq<nat>, d: Direction, q: seq<Share>)
    requires |keys| == |legs|
  {
    Lists(legs, percent, keys, d, q) && Distinct(q)
    && forall i :: 0 <= i < |legs| && legs[i].direction == d ==> ShareOf(legs, percent, keys, i) in q
  }

  /** Shares without a remainder come last; any order by falling remainder is of this kind. */
  predicate NonZeroFirst(q: seq<Share>) {
    forall k, m :: 0 <= k < m < |q| && q[k].remainder == 0 ==> q[m].remainder == 0
  }

  function Drop(q: seq<Share>, k: nat): (r: seq<Share>)
    requires k < |q|
    ensures |r| == |q| - 1
  {
    q[..k] + q[k + 1..]
  }

  lemma {:induction false} ListSumDrop(q: seq<Share>, k: nat, values: seq<int>)
    requires Within(q, |values|) && k < |q|
    ensures Within(Drop(q, k), |values|)
    ensures ListSum(q, values) == ListSum(Drop(q, k), values) + values[q[k].index]
  {
    assert Within(Drop(q, k), |values|) by {
      forall x | x in Drop(q, k)
        ensures x.index < |values|
      {
        assert x in q;
      }
    }
    if k == 0 {
      assert Drop(q, 0) == q[1..];
    } else {
      ListSumDrop(q[1..], k - 1, values);
      assert Drop(q, k) == [q[0]] + Drop(q[1..], k - 1);
    }
  }

  lemma {:induction false} ListSumPrefix(s: seq<Share>, a: seq<int>, n: nat)
    requires n <= |a| && Within(s, n)
    ensures ListSum(s, a[..n]) == ListSum(s, a)
  {
    if s != [] {
      ListSumPrefix(s[1..], a, n);
    }
  }

  /** Without the last leg's share, a listing is one of the other legs. */
  lemma DropEnumerates(legs: seq<Leg>, percent: nat, keys: seq<nat>, d: Direction, q: seq<Share>, k: nat)
    requires |keys| == |legs|
    requires Enumerates(legs, percent, keys, d, q) && legs != [] && k < |q| && q[k].index == |legs| - 1
    ensures Enumerates(legs[..|legs| - 1], percent, keys[..|legs| - 1], d, Drop(q, k))
  {
  }

  /** Summing over a listing is summing over its direction. */
  lemma {:induction false} EnumeratedSum(legs: seq<Leg>, percent: nat, keys: seq<nat>, d: Direction, q: seq<Share>, values: seq<int>)
    requires |keys| == |legs|
    requires |values| == |legs| && Enumerates(legs, percent, keys, d, q)
    ensures ListSum(q, values) == DirSum(legs, values, d)
  {
    if legs != [] {
      var n := |legs| - 1;
      if legs[n].direction == d {
        var k :| 0 <= k < |q| && q[k] == ShareOf(legs, percent, keys, n);
        DropEnumerates(legs, percent, keys, d, q, k);
        EnumeratedSum(legs[..n], percent, keys[..n], d, Drop(q, k), values[..n]);
        ListSumDrop(q, k, values);
        ListSumPrefix(Drop(q, k), values, n);
      } else {
        assert forall x :: x in q ==> x.index < n && x == ShareOf(legs[..n], percent, keys[..n], x.index);
        EnumeratedSum(legs[..n], percent, keys[..n], d, q, values[..n]);
        ListSumPrefix(q, values, n);
      }
    }
  }

  /** The sorted shares are such a listing. */
  lemma QueueEnumerates(legs: seq<Leg>, percent: nat, keys: seq<nat>, d: Direction)
    requires Graded(legs, percent, keys)
    ensures Enumerates(legs, percent, keys, d, Queue(legs, percent, keys, d)) && NonZeroFirst(Queue(legs, percent, keys, d))
  {
  }

  function Products(legs: seq<Leg>, percent: nat): (r: seq<int>)
    ensures |r| == |legs|
  {
    seq(|legs|, i requires 0 <= i < |legs| => Product(legs[i], percent))
  }

  function Remainders(legs: seq<Leg>, percent: nat): (r: seq<int>)
    ensures |r| == |legs|
  {
    seq(|legs|, i requires 0 <= i < |legs| => RemainderOf(legs[i], percent))
  }

  lemma {:induction false} ScaleSum(legs: seq<Leg>, percent: nat, d: Direction)
    ensures DirSum(legs, Amounts(legs), d) * percent == DirSum(legs, Products(legs, percent), d)
  {
    if legs != [] {
      var n := |legs| - 1;
      ScaleSum(legs[..n], percent, d);
      assert Amounts(legs)[..n] == Amounts(legs[..n]);
      assert Products(legs, percent)[..n] == Products(legs[..n], percent);
      Distribute(DirSum(legs[..n], Amounts(legs[..n]), d), legs[n].amount, percent);
    }
  }

  lemma Distribute(x: int, y: int, k: int)
    ensures (x + y) * k == x * k + y * k
  {
  }

  lemma {:induction false} ExactSum(legs: seq<Leg>, percent: nat, d: Direction)
    ensures DirSum(legs, Products(legs, percent), d)
         == 100 * DirSum(legs, Floors(legs, percent), d) + DirSum(legs, Remainders(legs, percent), d)
  {
    if legs != [] {
      var n := |legs| - 1;
      ExactSum(legs[..n], percent, d);
      assert Products(legs, percent)[..n] == Products(legs[..n], percent);
      assert Floors(legs, percent)[..n] == Floors(legs[..n], percent);
      assert Remainders(legs, percent)[..n] == Remainders(legs[..n], percent);
      assert Product(legs[n], percent) == 100 * FloorOf(legs[n], percent) + RemainderOf(legs[n], percent);
    }
  }

  ghost function Remaindered(s: seq<Share>): (m: nat)
    requires NonZeroFirst(s)
    ensures m <= |s|
    ensures forall k :: 0 <= k < m ==> s[k].remainder > 0
    ensures forall k :: m <= k < |s| ==> s[k].remainder == 0
  {
    if s == [] || s[0].remainder == 0 then 0
    else 1 + Remaindered(s[1..])
  }

  lemma {:induction false} RemainderSum(legs: seq<Leg>, percent: nat, keys: seq<nat>, d: Direction, s: seq<Share>)
    requires Graded(legs, percent, keys)
    requires NonZeroFirst(s) && Lists(legs, percent, keys, d, s)
    ensures 0 <= ListSum(s, Remainders(legs, percent)) <= 99 * Remaindered(s)
  {
    if s != [] {
      RemainderSum(legs, percent, keys, d, s[1..]);
      assert s[0] in s && (Remainders(legs, percent)[s[0].index] == 0 <==> s[0].remainder == 0);
      if s[0].remainder == 0 {
        assert forall k :: 0 <= k < |s| ==> s[k].remainder == 0;
        assert Remaindered(s[1..]) == 0;
      }
    }
  }

  /** The key fact, for any order with the remainders first: the units left over never outnumber the rows with one. */
  lemma LeftoverBound(legs: seq<Leg>, percent: nat, keys: seq<nat>, d: Direction, q: seq<Share>)
    requires Graded(legs, percent, keys)
    requires Enumerates(legs, percent, keys, d, q) && NonZeroFirst(q)
    ensures 0 <= Leftover(legs, percent, d) <= Remaindered(q)
  {
    var floors := DirSum(legs, Floors(legs, percent), d);
    var rems := DirSum(legs, Remainders(legs, percent), d);
    ScaleSum(legs, percent, d);
    ExactSum(legs, percent, d);
    EnumeratedSum(legs, percent, keys, d, q, Remainders(legs, percent));
    RemainderSum(legs, percent, keys, d, q);
    RoundDivShift(rems, 100, floors);
    LeftoverArithmetic(rems, Remaindered(q));
  }

  lemma LeftoverArithmetic(rems: int, m: nat)
    requires 0 <= rems <= 99 * m
    ensures 0 <= RoundDiv(rems, 100) <= m
  {
  }

  /** `r` is what handing out `left` units along `q` writes. */
  predicate HandedOut(q: seq<Share>, left: int, r: seq<int>)
    requires Within(q, |r|)
  {
    forall k :: 0 <= k < |q| ==> r[q[k].index] == q[k].amount + if k < left then 1 else 0
  }

  /** `r` is what serving the queue of direction `d` writes. */
  ghost predicate Served(legs: seq<Leg>, percent: nat, keys: seq<nat>, d: Direction, r: seq<int>)
    requires |keys| == |legs|
    requires |r| == |legs|
  {
    HandedOut(Queue(legs, percent, keys, d), Leftover(legs, percent, d), r)
  }

  lemma {:induction false} HandedOutSum(legs: seq<Leg>, percent: nat, keys: seq<nat>, d: Direction, r: seq<int>, q: seq<Share>,
                                        left: int)
    requires |keys| == |legs|
    requires |r| == |legs| && 0 <= left <= |q| && Lists(legs, percent, keys, d, q) && HandedOut(q, left, r)
    ensures ListSum(q, r) == ListSum(q, Floors(legs, percent)) + left
  {
    if q != [] {
      assert Floors(legs, percent)[q[0].index] == q[0].amount;
      assert forall k :: 0 <= k < |q| - 1 ==> q[1..][k] == q[k + 1];
      HandedOutSum(legs, percent, keys, d, r, q[1..], if left > 0 then left - 1 else 0);
    }
  }

  /**
   The totals and bounds do not depend on how equal remainders are ordered: whatever order
   serves the rows with a remainder first, its direction sums exactly to the rounded target
   and each row gets its floor or, only with a remainder, one unit more.
   */
  lemma AnyOrderSplits(legs: seq<Leg>, percent: nat, keys: seq<nat>, d: Direction, q: seq<Share>, r: seq<int>)
    requires Graded(legs, percent, keys)
    requires Enumerates(legs, percent, keys, d, q) && NonZeroFirst(q) && |r| == |legs|
    requires HandedOut(q, Leftover(legs, percent, d), r)
    ensures DirSum(legs, r, d) == Target(legs, percent, d)
    ensures forall i :: 0 <= i < |legs| && legs[i].direction == d ==>
              r[i] == FloorOf(legs[i], percent) || (RemainderOf(legs[i], percent) > 0 && HasExtra(legs, percent, r, i))
  {
    var left := Leftover(legs, percent, d);
    LeftoverBound(legs, percent, keys, d, q);
    HandedOutSum(legs, percent, keys, d, r, q, left);
    EnumeratedSum(legs, percent, keys, d, q, r);
    EnumeratedSum(legs, percent, keys, d, q, Floors(legs, percent));
    forall i | 0 <= i < |legs| && legs[i].direction == d
      ensures r[i] == FloorOf(legs[i], percent) || (RemainderOf(legs[i], percent) > 0 && HasExtra(legs, percent, r, i))
    {
      var k :| 0 <= k < |q| && q[k] == ShareOf(legs, percent, keys, i);
    }
  }

  lemma ServedIsFair(legs: seq<Leg>, percent: nat, keys: seq<nat>, r: seq<int>)
    requires Graded(legs, percent, keys)
    requires |r| == |legs|
    requires Served(legs, percent, keys, Debit, r) && Served(legs, percent, keys, Credit, r)
    ensures Fair(legs, percent, keys, r)
  {
    forall d: Direction
      ensures DirSum(legs, r, d) == Target(legs, percent, d)
      ensures forall i :: 0 <= i < |legs| && legs[i].direction == d ==>
                r[i] == FloorOf(legs[i], percent) || (RemainderOf(legs[i], percent) > 0 && HasExtra(legs, percent, r, i))
    {
      QueueEnumerates(legs, percent, keys, d);
      AnyOrderSplits(legs, percent, keys, d, Queue(legs, percent, keys, d), r);
    }
    forall i, j | 0 <= i < |legs| && 0 <= j < |legs| && legs[i].direction == legs[j].direction
                  && HasExtra(legs, percent, r, i) && !HasExtra(legs, percent, r, j)
      ensures Before(keys, i, j)
    {
      var k := ServedAt(legs, percent, keys, legs[i].direction, r, i);
      var m := ServedAt(legs, percent, keys, legs[j].direction, r, j);
      assert Less(Queue(legs, percent, keys, legs[i].direction)[k], Queue(legs, percent, keys, legs[i].direction)[m]);
    }
  }

  lemma ServedAt(legs: seq<Leg>, percent: nat, keys: seq<nat>, d: Direction, r: seq<int>, i: nat) returns (k: nat)
    requires |keys| == |legs|
    requires |r| == |legs| && Served(legs, percent, keys, d, r)
    requires i < |legs| && legs[i].direction == d
    ensures k < |Queue(legs, percent, keys, d)| && Queue(legs, percent, keys, d)[k] == ShareOf(legs, percent, keys, i)
    ensures HasExtra(legs, percent, r, i) <==> k < Leftover(legs, percent, d)
  {
    var q := Queue(legs, percent, keys, d);
    k :| 0 <= k < |q| && q[k] == ShareOf(legs, percent, keys, i);
  }

  /** The split by given keys: a row gets one unit more when it stands early enough in its queue. */
  function SplitBy(legs: seq<Leg>, percent: nat, keys: seq<nat>): (r: seq<int>)
    requires |keys| == |legs|
    ensures |r| == |legs|
  {
    seq(|legs|, i requires 0 <= i < |legs| => ScaledAt(legs, percent, keys, i))
  }

  lemma SplitByIsFair(legs: seq<Leg>, percent: nat, keys: seq<nat>)
    requires Graded(legs, percent, keys)
    ensures Fair(legs, percent, keys, SplitBy(legs, percent, keys))
  {
    var r := SplitBy(legs, percent, keys);
    ScaledServes(legs, percent, keys, Debit, r);
    ScaledServes(legs, percent, keys, Credit, r);
    ServedIsFair(legs, percent, keys, r);
  }

  /** The sides of one debit and three credits, the shape of a confirmation. */
  lemma OneDebitThreeCredits(legs: seq<Leg>, x: seq<int>)
    requires |legs| == |x| == 4 && legs[0].direction == Debit && forall k :: 0 < k < 4 ==> legs[k].direction == Credit
    ensures DirSum(legs, x, Debit) == x[0] && DirSum(legs, x, Credit) == x[1] + x[2] + x[3]
  {
    for k := 1 to 4
      invariant DirSum(legs[..k], x[..k], Debit) == x[0]
      invariant DirSum(legs[..k], x[..k], Credit) == (if k > 1 then x[1] else 0) + (if k > 2 then x[2] else 0) + (if k > 3 then x[3] else 0)
    {
      assert legs[..k + 1][..k] == legs[..k] && x[..k + 1][..k] == x[..k];
    }
    assert legs[..4] == legs && x[..4] == x;
  }

  // ------------------------------------------------------------------ the code's own keys

  /** `exact % 1`, computed in doubles while the product is one; past that, in exact arithmetic. */
  function Fraction(product: nat): nat {
    if product <= D.TWO_53 then D.Quotient(product, 100) % D.SCALE else product % 100 * (D.SCALE / 100)
  }

  function DoubleKeys(legs: seq<Leg>, percent: nat): (keys: seq<nat>)
    ensures |keys| == |legs|
  {
    seq(|legs|, i requires 0 <= i < |legs| => Fraction(Product(legs[i], percent)))
  }

  lemma DoubleKeysGraded(legs: seq<Leg>, percent: nat)
    ensures Graded(legs, percent, DoubleKeys(legs, percent))
  {
    forall i | 0 <= i < |legs|
      ensures Fraction(Product(legs[i], percent)) == 0 <==> RemainderOf(legs[i], percent) == 0
    {
      if Product(legs[i], percent) <= D.TWO_53 {
        D.DoublesAgree(Product(legs[i], percent), 100);
      }
    }
  }

  /**
   While its products are at most 2^53, the numbers the code works with are these: `Math.floor`
   of a share's double is its floor, `Math.round` of the total's double is the target, and the
   key of a share is the fraction of its double.
   */
  lemma SharesAreDoubles(legs: seq<Leg>, percent: nat, d: Direction, i: nat)
    requires i < |legs| && Product(legs[i], percent) <= D.TWO_53
    requires 0 <= DirSum(legs, Amounts(legs), d) * percent <= D.TWO_53
    ensures D.Quotient(Product(legs[i], percent), 100) == FloorOf(legs[i], percent) * D.SCALE + DoubleKeys(legs, percent)[i]
    ensures RoundDiv(D.Quotient(DirSum(legs, Amounts(legs), d) * percent, 100), D.SCALE) == Target(legs, percent, d)
  {
    D.DoublesAgree(Product(legs[i], percent), 100);
    D.DivMod(D.Quotient(Product(legs[i], percent), 100), D.SCALE);
    D.DoublesAgree(DirSum(legs, Amounts(legs), d) * percent, 100);
  }

  /** The split of the code, as a function. */
  function Scaled(legs: seq<Leg>, percent: nat): (r: seq<int>)
    ensures |r| == |legs|
  {
    SplitBy(legs, percent, DoubleKeys(legs, percent))
  }

  lemma ScaledIsFair(legs: seq<Leg>, percent: nat)
    ensures Fair(legs, percent, DoubleKeys(legs, percent), Scaled(legs, percent))
  {
    DoubleKeysGraded(legs, percent);
    SplitByIsFair(legs, percent, DoubleKeys(legs, percent));
  }

  /** What callers of the split rely on: each direction's total, and no row above its own amount. */
  lemma ScaledTotal(legs: seq<Leg>, percent: nat, d: Direction)
    ensures DirSum(legs, Scaled(legs, percent), d) == Target(legs, percent, d)
  {
    ScaledIsFair(legs, percent);
  }

  lemma ScaledBounds(legs: seq<Leg>, percent: nat, i: nat)
    requires percent <= 100 && i < |legs|
    ensures 0 <= Scaled(legs, percent)[i] <= legs[i].amount
    ensures percent == 100 ==> Scaled(legs, percent)[i] == legs[i].amount
  {
    ScaledIsFair(legs, percent);
    FairBounds(legs, percent, DoubleKeys(legs, percent), Scaled(legs, percent), i);
  }

  function ScaledAt(legs: seq<Leg>, percent: nat, keys: seq<nat>, i: nat): int
    requires |keys| == |legs|
    requires i < |legs|
  {
    var d := legs[i].direction;
    FloorOf(legs[i], percent)
    + if PositionOf(Queue(legs, percent, keys, d), i) < Leftover(legs, percent, d) then 1 else 0
  }

  lemma ScaledServes(legs: seq<Leg>, percent: nat, keys: seq<nat>, d: Direction, r: seq<int>)
    requires Graded(legs, percent, keys)
    requires |r| == |legs| && forall i :: 0 <= i < |legs| ==> r[i] == ScaledAt(legs, percent, keys, i)
    ensures Served(legs, percent, keys, d, r)
  {
    var q := Queue(legs, percent, keys, d);
    QueueEnumerates(legs, percent, keys, d);
    forall k | 0 <= k < |q|
      ensures r[q[k].index] == q[k].amount + if k < Leftover(legs, percent, d) then 1 else 0
    {
      assert q[k] in q;
      PositionIs(q, k);
    }
  }

  function PositionOf(q: seq<Share>, i: nat): nat {
    if q == [] || q[0].index == i then 0
    else 1 + PositionOf(q[1..], i)
  }

  lemma {:induction false} PositionIs(q: seq<Share>, k: nat)
    requires Distinct(q) && k < |q|
    ensures PositionOf(q, q[k].index) == k
  {
    if k > 0 {
      assert q[0].index != q[k].index;
      assert q[1..][k - 1] == q[k];
      PositionIs(q[1..], k - 1);
    }
  }

  predicate Holds(shares: seq<Share>, i: nat) {
    exists k :: 0 <= k < |shares| && shares[k].index == i
  }

  /** The inner loop: walk the shares, giving one unit more while any remain, and write each amount back. */
  method HandOut(shares: seq<Share>, left: nat, before: seq<int>) returns (result: seq<int>)
    requires Within(shares, |before|) && Distinct(shares)
    ensures |result| == |before|
    ensures forall k :: 0 <= k < |shares| ==>
      result[shares[k].index] == shares[k].amount + if k < left then 1 else 0
    ensures forall i :: 0 <= i < |before| && !Holds(shares, i) ==> result[i] == before[i]
  {
    result := before;
    var remaining := left;
    for k := 0 to |shares|
      invariant |result| == |before|
      invariant remaining == if k < left then left - k else 0
      invariant forall m :: 0 <= m < k ==>
        result[shares[m].index] == shares[m].amount + if m < left then 1 else 0
      invariant forall i :: 0 <= i < |before| && !Holds(shares, i) ==> result[i] == before[i]
    {
      assert shares[k] in shares;
      var amount := shares[k].amount;
      if remaining > 0 {
        amount := amount + 1;
        remaining := remaining - 1;
      }
      result := result[shares[k].index := amount];
    }
  }

  /** One pass of the outer loop, for one direction. */
  method Serve(legs: seq<Leg>, percent: nat, keys: seq<nat>, d: Direction, before: seq<int>) returns (result: seq<int>)
    requires Graded(legs, percent, keys)
    requires |before| == |legs|
    ensures |result| == |legs| && Served(legs, percent, keys, d, result)
    ensures forall i :: 0 <= i < |legs| && legs[i].direction != d ==> result[i] == before[i]
  {
    var shares := Queue(legs, percent, keys, d);
    QueueEnumerates(legs, percent, keys, d);
    LeftoverBound(legs, percent, keys, d, shares);
    result := HandOut(shares, Leftover(legs, percent, d), before);
    assert forall k :: 0 <= k < |shares| ==> shares[k] in shares;
  }

  lemma ServedFrame(legs: seq<Leg>, percent: nat, keys: seq<nat>, d: Direction, a: seq<int>, b: seq<int>)
    requires |keys| == |legs|
    requires |a| == |b| == |legs| && Served(legs, percent, keys, d, a)
    requires forall i :: 0 <= i < |legs| && legs[i].direction == d ==> b[i] == a[i]
    ensures Served(legs, percent, keys, d, b)
  {
  }

  /** `scaledBalancedAmounts`: the debits first, then the credits. */
  method ScaledBalancedAmounts(legs: seq<Leg>, percent: nat) returns (result: seq<int>)
    ensures result == Scaled(legs, percent) && Fair(legs, percent, DoubleKeys(legs, percent), result)
  {
    var keys := DoubleKeys(legs, percent);
    DoubleKeysGraded(legs, percent);
    result := seq(|legs|, _ => 0);
    result := Serve(legs, percent, keys, Debit, result);
    ghost var debits := result;
    result := Serve(legs, percent, keys, Credit, result);
    ServedFrame(legs, percent, keys, Debit, debits, result);
    ServedIsFair(legs, percent, keys, result);
    ScaledIsFair(legs, percent);
    FairIsUnique(legs, percent, keys, result, Scaled(legs, percent));
  }
}
