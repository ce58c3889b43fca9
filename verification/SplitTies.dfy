/**
 When floating-point noise decides a refund. Rows with equal remainders are meant to be
 served in row order, but doubles may order them otherwise. That changes who gets a unit
 exactly when a tie falls on the cut, between the last row that gets one and the next.
 */
module SplitTies {
  import opened Base
  import opened Money
  import opened LedgerTypes
  import opened Split
  import D = Doubles
  import L = Ledger
  import R = Refunds

  /** Keys without noise: the remainders themselves. */
  function ExactKeys(legs: seq<Leg>, percent: nat): (keys: seq<nat>)
    ensures |keys| == |legs|
  {
    seq(|legs|, i requires 0 <= i < |legs| => RemainderOf(legs[i], percent))
  }

  /** The split in exact arithmetic: the larger remainder first, then the earlier row. */
  function Exact(legs: seq<Leg>, percent: nat): (r: seq<int>)
    ensures |r| == |legs|
  {
    SplitBy(legs, percent, ExactKeys(legs, percent))
  }

  lemma ExactIsFair(legs: seq<Leg>, percent: nat)
    ensures Fair(legs, percent, ExactKeys(legs, percent), Exact(legs, percent))
  {
    SplitByIsFair(legs, percent, ExactKeys(legs, percent));
  }

  /** Keys that keep unequal remainders in order and say nothing of equal ones. */
  predicate Refines(legs: seq<Leg>, percent: nat, keys: seq<nat>) {
    Graded(legs, percent, keys)
    && forall i, j :: 0 <= i < |legs| && 0 <= j < |legs| && RemainderOf(legs[i], percent) > RemainderOf(legs[j], percent) ==> keys[i] > keys[j]
  }

  /** The last row of a direction that gets a unit and the first that gets none have equal remainders. */
  predicate TieAtCut(legs: seq<Leg>, percent: nat, d: Direction) {
    var q, n := Queue(legs, percent, ExactKeys(legs, percent), d), Leftover(legs, percent, d);
    0 < n < |q| && q[n - 1].remainder == q[n].remainder
  }

  // --------------------------------------------------------- exactly when order matters

  lemma ExactServed(legs: seq<Leg>, percent: nat, d: Direction)
    ensures Served(legs, percent, ExactKeys(legs, percent), d, Exact(legs, percent))
  {
    ScaledServes(legs, percent, ExactKeys(legs, percent), d, Exact(legs, percent));
  }

  /** A row's place in the exact queue: before the cut exactly if it gets a unit. */
  lemma PlaceOf(legs: seq<Leg>, percent: nat, i: nat) returns (k: nat)
    requires i < |legs|
    ensures var q := Queue(legs, percent, ExactKeys(legs, percent), legs[i].direction);
            k < |q| && q[k].remainder == RemainderOf(legs[i], percent)
    ensures HasExtra(legs, percent, Exact(legs, percent), i) <==> k < Leftover(legs, percent, legs[i].direction)
  {
    ExactServed(legs, percent, legs[i].direction);
    k := ServedAt(legs, percent, ExactKeys(legs, percent), legs[i].direction, Exact(legs, percent), i);
  }

  /** Without a tie at the cut, a row with a unit has a larger remainder than a row without. */
  lemma CutIsStrict(legs: seq<Leg>, percent: nat, i: nat, j: nat)
    requires i < |legs| && j < |legs| && legs[i].direction == legs[j].direction
    requires HasExtra(legs, percent, Exact(legs, percent), i) && !HasExtra(legs, percent, Exact(legs, percent), j)
    requires !TieAtCut(legs, percent, legs[i].direction)
    ensures RemainderOf(legs[i], percent) > RemainderOf(legs[j], percent)
  {
    var k := PlaceOf(legs, percent, i);
    var m := PlaceOf(legs, percent, j);
    SortedCut(Queue(legs, percent, ExactKeys(legs, percent), legs[i].direction), Leftover(legs, percent, legs[i].direction), k, m);
  }

  lemma SortedCut(q: seq<Share>, n: nat, k: nat, m: nat)
    requires Sorted(q) && k < n <= m < |q| && q[n - 1].remainder != q[n].remainder
    ensures q[k].remainder > q[m].remainder
  {
    assert Less(q[n - 1], q[n]);
    assert k < n - 1 ==> Less(q[k], q[n - 1]);
    assert n < m ==> Less(q[n], q[m]);
  }

  /** Keys that do not disturb the cut give the exact split. */
  lemma NoTieNoMatter(legs: seq<Leg>, percent: nat, keys: seq<nat>)
    requires Refines(legs, percent, keys) && forall d :: !TieAtCut(legs, percent, d)
    ensures SplitBy(legs, percent, keys) == Exact(legs, percent)
  {
    ExactIsFair(legs, percent);
    SplitByIsFair(legs, percent, keys);
    forall i, j | 0 <= i < |legs| && 0 <= j < |legs| && legs[i].direction == legs[j].direction
                  && HasExtra(legs, percent, Exact(legs, percent), i) && !HasExtra(legs, percent, Exact(legs, percent), j)
      ensures Before(keys, i, j)
    {
      CutIsStrict(legs, percent, i, j);
    }
    FairIsUnique(legs, percent, keys, SplitBy(legs, percent, keys), Exact(legs, percent));
  }

  /** The rows on either side of a tied cut. */
  lemma TiedRows(legs: seq<Leg>, percent: nat, d: Direction) returns (i: nat, j: nat)
    requires TieAtCut(legs, percent, d)
    ensures i < |legs| && j < |legs| && legs[i].direction == legs[j].direction == d
    ensures HasExtra(legs, percent, Exact(legs, percent), i) && !HasExtra(legs, percent, Exact(legs, percent), j)
    ensures RemainderOf(legs[i], percent) == RemainderOf(legs[j], percent) > 0
  {
    var keys := ExactKeys(legs, percent);
    var q, n := Queue(legs, percent, keys, d), Leftover(legs, percent, d);
    ExactServed(legs, percent, d);
    ExactIsFair(legs, percent);
    assert q[n - 1] in q && q[n] in q;
    i, j := q[n - 1].index, q[n].index;
    assert Exact(legs, percent)[i] == FloorOf(legs[i], percent) + 1 && Exact(legs, percent)[j] == FloorOf(legs[j], percent);
  }

  /** Keys that put one row ahead of its equals. */
  function Favouring(legs: seq<Leg>, percent: nat, j: nat): (keys: seq<nat>)
    ensures |keys| == |legs|
  {
    seq(|legs|, k requires 0 <= k < |legs| => 2 * RemainderOf(legs[k], percent) + if k == j then 1 else 0)
  }

  lemma TieMatters(legs: seq<Leg>, percent: nat, d: Direction) returns (keys: seq<nat>)
    requires TieAtCut(legs, percent, d)
    ensures Refines(legs, percent, keys) && SplitBy(legs, percent, keys) != Exact(legs, percent)
  {
    var i, j := TiedRows(legs, percent, d);
    keys := Favouring(legs, percent, j);
    SplitByIsFair(legs, percent, keys);
    assert !Before(keys, i, j);
  }

  /** Every order of equal remainders gives the one split exactly when neither direction has a tie at its cut. */
  lemma OrderMattersAtTies(legs: seq<Leg>, percent: nat)
    ensures (forall keys :: Refines(legs, percent, keys) ==> SplitBy(legs, percent, keys) == Exact(legs, percent))
       <==> (forall d :: !TieAtCut(legs, percent, d))
  {
    if forall d :: !TieAtCut(legs, percent, d) {
      forall keys | Refines(legs, percent, keys)
        ensures SplitBy(legs, percent, keys) == Exact(legs, percent)
      {
        NoTieNoMatter(legs, percent, keys);
      }
    } else {
      var d :| TieAtCut(legs, percent, d);
      var keys := TieMatters(legs, percent, d);
    }
  }

  // -------------------------------------------------------------- what the code does

  /** Every share is below 2^46. */
  predicate Small(legs: seq<Leg>, percent: nat) {
    forall i :: 0 <= i < |legs| ==> Product(legs[i], percent) < 100 * D.TWO_46
  }

  lemma DoublesRefine(legs: seq<Leg>, percent: nat)
    requires Small(legs, percent)
    ensures Refines(legs, percent, DoubleKeys(legs, percent))
  {
    DoubleKeysGraded(legs, percent);
    forall i, j | 0 <= i < |legs| && 0 <= j < |legs| && RemainderOf(legs[i], percent) > RemainderOf(legs[j], percent)
      ensures DoubleKeys(legs, percent)[i] > DoubleKeys(legs, percent)[j]
    {
      D.FractionsOrdered(Product(legs[i], percent), Product(legs[j], percent));
    }
  }

  /** Across the cut of the exact split, a row without a unit comes before one with a unit in the code's order. */
  predicate Overtakes(legs: seq<Leg>, percent: nat, j: nat, i: nat)
    requires i < |legs| && j < |legs|
  {
    && legs[i].direction == legs[j].direction && Before(DoubleKeys(legs, percent), j, i)
    && HasExtra(legs, percent, Exact(legs, percent), i) && !HasExtra(legs, percent, Exact(legs, percent), j)
  }

  /** The code gives the exact split exactly when no row overtakes another across the cut. */
  lemma CodeIsExact(legs: seq<Leg>, percent: nat)
    ensures Scaled(legs, percent) == Exact(legs, percent)
       <==> !exists i, j :: 0 <= i < |legs| && 0 <= j < |legs| && Overtakes(legs, percent, j, i)
  {
    var keys, exact := DoubleKeys(legs, percent), Exact(legs, percent);
    ScaledIsFair(legs, percent);
    ExactIsFair(legs, percent);
    if i, j :| 0 <= i < |legs| && 0 <= j < |legs| && Overtakes(legs, percent, j, i) {
      assert !Before(keys, i, j);
    } else {
      forall i, j | 0 <= i < |legs| && 0 <= j < |legs| && legs[i].direction == legs[j].direction
                    && HasExtra(legs, percent, exact, i) && !HasExtra(legs, percent, exact, j)
        ensures Before(keys, i, j)
      {
        assert !Overtakes(legs, percent, j, i);
      }
      FairIsUnique(legs, percent, keys, Scaled(legs, percent), exact);
    }
  }

  /**
   Below 2^46, only a later row with the same remainder and the larger double overtakes, at
   a cut that is tied; so the code gives the exact split whenever neither cut is.
   */
  lemma OnlyTiesOvertake(legs: seq<Leg>, percent: nat)
    requires Small(legs, percent)
    ensures forall i, j :: 0 <= i < |legs| && 0 <= j < |legs| && Overtakes(legs, percent, j, i) ==>
              i < j && RemainderOf(legs[i], percent) == RemainderOf(legs[j], percent) && TieAtCut(legs, percent, legs[i].direction)
              && Fraction(Product(legs[i], percent)) < Fraction(Product(legs[j], percent))
    ensures (forall d :: !TieAtCut(legs, percent, d)) ==> Scaled(legs, percent) == Exact(legs, percent)
  {
    DoublesRefine(legs, percent);
    ExactIsFair(legs, percent);
    forall i, j | 0 <= i < |legs| && 0 <= j < |legs| && Overtakes(legs, percent, j, i)
      ensures i < j && RemainderOf(legs[i], percent) == RemainderOf(legs[j], percent) && TieAtCut(legs, percent, legs[i].direction)
      ensures Fraction(Product(legs[i], percent)) < Fraction(Product(legs[j], percent))
    {
      assert Before(ExactKeys(legs, percent), i, j);
      if !TieAtCut(legs, percent, legs[i].direction) {
        CutIsStrict(legs, percent, i, j);
      }
    }
    CodeIsExact(legs, percent);
  }

  // ------------------------------------------------------------ a booking with such a tie

  /** Gross, commission, tax and venue net of a price of 112 at 9.82 and 0.89 percent. */
  const TIED := [Leg(Debit, 112), Leg(Credit, 11), Leg(Credit, 1), Leg(Credit, 100)]

  lemma TiedSums(values: seq<int>)
    requires |values| == 4
    ensures DirSum(TIED, values, Debit) == values[0] && DirSum(TIED, values, Credit) == values[1] + values[2] + values[3]
  {
    OneDebitThreeCredits(TIED, values);
  }

  lemma TiedTargets()
    ensures Target(TIED, 30, Debit) == 34 && Target(TIED, 30, Credit) == 34
  {
    TiedSums(Amounts(TIED));
  }

  /** The double nearest to 3.3 has a smaller fraction than the one nearest to 0.3. */
  lemma TiedDoubles()
    ensures Fraction(330) < Fraction(30)
  {
    D.Power64();
    D.PowerProduct(64, 64);
    D.PowerProduct(4_096, 8);
    D.QuotientOf(330, 100, 32_768, 7_430_939_385_161_318);
    D.QuotientOf(30, 100, 4_096, 5_404_319_552_844_595);
  }

  lemma TiedKeys()
    ensures ExactKeys(TIED, 30) == [60, 30, 30, 0]
    ensures var keys := DoubleKeys(TIED, 30); keys[1] == Fraction(330) && keys[2] == Fraction(30) && keys[3] == Fraction(3_000)
  {
    assert Product(TIED[1], 30) == 330 && Product(TIED[2], 30) == 30 && Product(TIED[3], 30) == 3_000;
  }

  lemma TiedOrder()
    ensures 0 == Fraction(3_000) < Fraction(330) < Fraction(30)
  {
    TiedDoubles();
    D.DoublesAgree(330, 100);
    D.DoublesAgree(3_000, 100);
  }

  lemma TiedFloors()
    ensures FloorOf(TIED[0], 30) == 33 && FloorOf(TIED[1], 30) == 3 && FloorOf(TIED[2], 30) == 0 && FloorOf(TIED[3], 30) == 30
    ensures RemainderOf(TIED[0], 30) == 60 && RemainderOf(TIED[1], 30) == RemainderOf(TIED[2], 30) == 30 && RemainderOf(TIED[3], 30) == 0
  {
  }

  /** Whichever of commission and tax comes first gets the unit left over. */
  lemma TiedFair(keys: seq<nat>, commission: int, tax: int)
    requires |keys| == 4 && keys[3] == 0 < keys[1] && 0 < keys[2]
    requires (commission == 4 && tax == 0 && Before(keys, 1, 2)) || (commission == 3 && tax == 1 && Before(keys, 2, 1))
    ensures Fair(TIED, 30, keys, [34, commission, tax, 30])
  {
    var r := [34, commission, tax, 30];
    TiedFloors();
    TiedTargets();
    TiedSums(r);
    assert forall d :: DirSum(TIED, r, d) == Target(TIED, 30, d) by {
      forall d: Direction
        ensures DirSum(TIED, r, d) == Target(TIED, 30, d)
      {
        assert d == Debit || d == Credit;
      }
    }
    forall i, j | 0 <= i < 4 && 0 <= j < 4 && TIED[i].direction == TIED[j].direction && HasExtra(TIED, 30, r, i) && !HasExtra(TIED, 30, r, j)
      ensures Before(keys, i, j)
    {
      assert (i == 1 || i == 2) && 1 <= j;
    }
  }

  lemma TiedSplits()
    ensures Exact(TIED, 30) == [34, 4, 0, 30] && Scaled(TIED, 30) == [34, 3, 1, 30]
  {
    TiedKeys();
    TiedOrder();
    TiedFair(ExactKeys(TIED, 30), 4, 0);
    ExactIsFair(TIED, 30);
    FairIsUnique(TIED, 30, ExactKeys(TIED, 30), Exact(TIED, 30), [34, 4, 0, 30]);
    TiedFair(DoubleKeys(TIED, 30), 3, 1);
    ScaledIsFair(TIED, 30);
    FairIsUnique(TIED, 30, DoubleKeys(TIED, 30), Scaled(TIED, 30), [34, 3, 1, 30]);
  }

  /**
   A price of 112 at 9.82 percent commission and 0.89 percent tax, refunded at 30 percent:
   commission and tax give back 3 and 1, where exact arithmetic would take 4 and 0.
   */
  lemma TiedBooking(booking: Id, partner: Id, venue: Id, contract: Id, environment: Environment, at: Time,
                    correlation: string, id: Id)
    ensures var a := R.CalculateAmounts(112, R.Rates(982, 89));
            var legs := L.Legs(L.BookingRows(R.SnapshotOf(booking, partner, venue, contract, environment, a), at, correlation, id));
            a == R.Amounts(112, 11, 1, 100) && Scaled(legs, 30) == [34, 3, 1, 30] && Exact(legs, 30) == [34, 4, 0, 30]
  {
    TiedSplits();
    var a := R.CalculateAmounts(112, R.Rates(982, 89));
    assert a == R.Amounts(112, 11, 1, 100);
    assert L.Legs(L.BookingRows(R.SnapshotOf(booking, partner, venue, contract, environment, a), at, correlation, id)) == TIED;
  }
}
