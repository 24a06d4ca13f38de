/** Portfolio arithmetic over exact reals: values, shares of a total, the gap to a target,
    and the colour a gap is shown in. */
module Calculations {
  import opened Types

  function AssetValue(quantity: real, price: real): real { quantity * price }

  /** `calculateAllocation`: the share of `value` in `total`, and 0 for a zero total. */
  function Allocation(value: real, total: real): (r: real)
    ensures total == 0.0 ==> r == 0.0
    ensures total != 0.0 ==> r * total == value
  {
    if total == 0.0 then 0.0 else value / total
  }

  /** `calculateAllocationDiff`: how far the current share is above the target. */
  function AllocationDiff(current: real, target: real): (r: real)
    ensures r + target == current
  {
    current - target
  }

  const Muted := "text-muted-foreground"
  const Emerald := "text-emerald-500"
  const Red := "text-red-500"

  function Abs(x: real): real { if x < 0.0 then -x else x }

  /** `getCategoryDiffColor`: a gap under half a percentage point is neutral, an overweight
      gap is green and an underweight one red. */
  function CategoryDiffColor(diff: real): (r: string)
    ensures r == Muted <==> -0.005 < diff < 0.005
    ensures r == Emerald <==> diff >= 0.005
    ensures r == Red <==> diff <= -0.005
  {
    if Abs(diff) < 0.005 then Muted else if diff > 0.0 then Emerald else Red
  }

  /** `reduce((sum, x) => sum + x, 0)` */
  function Sum(xs: seq<real>): real {
    if xs == [] then 0.0 else Sum(xs[..|xs| - 1]) + xs[|xs| - 1]
  }

  /** `getTotalTargetAllocation` */
  function TotalTargetAllocation(categories: seq<CategoryWithStats>): real {
    Sum(seq(|categories|, i requires 0 <= i < |categories| => categories[i].category.targetAllocation))
  }

  /** Every value divided by `total`. */
  function DivideAll(values: seq<real>, total: real): (r: seq<real>)
    requires total != 0.0
    ensures |r| == |values| && forall i :: 0 <= i < |values| ==> r[i] == values[i] / total
  {
    seq(|values|, i requires 0 <= i < |values| => values[i] / total)
  }

  // ---------------------------------------------------------------------------
  // Properties

  lemma {:induction false} SumConcat(a: seq<real>, b: seq<real>)
    ensures Sum(a + b) == Sum(a) + Sum(b)
    decreases |b|
  {
    if b == [] {
      assert a + b == a;
    } else {
      assert (a + b)[..|a + b| - 1] == a + b[..|b| - 1];
      SumConcat(a, b[..|b| - 1]);
    }
  }

  lemma SumCons(x: real, s: seq<real>)
    ensures Sum([x] + s) == x + Sum(s)
  {
    SumConcat([x], s);
    assert [x][..0] == [];
  }

  /** The order values are added in does not change their sum. */
  lemma {:induction false} SumPermutation(a: seq<real>, b: seq<real>)
    requires multiset(a) == multiset(b)
    ensures Sum(a) == Sum(b)
    decreases |a|
  {
    if a != [] {
      var init, x := a[..|a| - 1], a[|a| - 1];
      assert a == init + [x];
      assert x in multiset(b);
      var j :| 0 <= j < |b| && b[j] == x;
      var rest := b[..j] + b[j + 1..];
      assert b == b[..j] + [x] + b[j + 1..];
      assert multiset(b) == multiset(b[..j]) + multiset{x} + multiset(b[j + 1..]);
      assert multiset(a) == multiset(init) + multiset{x};
      assert multiset(rest) == multiset(b[..j]) + multiset(b[j + 1..]);
      assert multiset(rest) == multiset(b) - multiset{x};
      assert multiset(init) == multiset(a) - multiset{x};
      SumPermutation(init, rest);
      SumConcat(b[..j] + [x], b[j + 1..]);
      SumConcat(b[..j], [x]);
      SumConcat(b[..j], b[j + 1..]);
      assert ([] + [x]) == [x];
      assert Sum([x]) == x by { assert [x][..0] == []; }
    }
  }

  /** Adding two columns row by row and then summing is summing each column. */
  lemma {:induction false} SumPointwise(a: seq<real>, b: seq<real>, c: seq<real>)
    requires |a| == |b| == |c| && forall i :: 0 <= i < |c| ==> c[i] == a[i] + b[i]
    ensures Sum(c) == Sum(a) + Sum(b)
    decreases |c|
  {
    if c != [] {
      var n := |c| - 1;
      SumPointwise(a[..n], b[..n], c[..n]);
    }
  }

  /** A column holding `v` on the one row whose key is `x` and 0 elsewhere sums to `v`, or to 0
      when no key is `x`. */
  lemma {:induction false} SumIndicator(xs: seq<real>, keys: seq<int>, x: int, v: real)
    requires |xs| == |keys| && forall i :: 0 <= i < |xs| ==> xs[i] == if keys[i] == x then v else 0.0
    requires forall i, j :: 0 <= i < j < |keys| ==> keys[i] != keys[j]
    ensures Sum(xs) == if x in keys then v else 0.0
    decreases |xs|
  {
    if xs != [] {
      var n := |xs| - 1;
      SumIndicator(xs[..n], keys[..n], x, v);
      assert keys == keys[..n] + [keys[n]];
      if keys[n] == x {
        assert x !in keys[..n];
      }
    }
  }

  lemma DivisionDistributes(x: real, y: real, t: real)
    requires t != 0.0
    ensures x / t + y / t == (x + y) / t
  {
    assert (x / t) * t == x && (y / t) * t == y;
    assert (x / t + y / t) * t == x + y;
  }

  /** Dividing every value by the same total divides their sum by it. */
  lemma {:induction false} SumDivideAll(values: seq<real>, total: real)
    requires total != 0.0
    ensures Sum(DivideAll(values, total)) == Sum(values) / total
    decreases |values|
  {
    if values != [] {
      var init := values[..|values| - 1];
      var d := DivideAll(values, total);
      assert d[..|d| - 1] == DivideAll(init, total);
      SumDivideAll(init, total);
      assert Sum(d) == Sum(init) / total + values[|values| - 1] / total;
      DivisionDistributes(Sum(init), values[|values| - 1], total);
    }
  }

  /** Shares of a non-zero total computed from the same values add up to one. */
  lemma SharesSumToOne(values: seq<real>)
    requires Sum(values) != 0.0
    ensures Sum(DivideAll(values, Sum(values))) == 1.0
  {
    SumDivideAll(values, Sum(values));
    assert Sum(values) / Sum(values) == 1.0;
  }

  lemma {:induction false} SumNonNegative(values: seq<real>)
    requires forall i :: 0 <= i < |values| ==> values[i] >= 0.0
    ensures Sum(values) >= 0.0
    decreases |values|
  {
    if values != [] { SumNonNegative(values[..|values| - 1]); }
  }

  /** A non-negative value is at most the sum of non-negative values it belongs to. */
  lemma {:induction false} SumBoundsElement(values: seq<real>, k: int)
    requires forall i :: 0 <= i < |values| ==> values[i] >= 0.0
    requires 0 <= k < |values|
    ensures values[k] <= Sum(values)
    decreases |values|
  {
    var init := values[..|values| - 1];
    if k < |values| - 1 {
      SumBoundsElement(init, k);
    } else {
      SumNonNegative(init);
    }
  }

  lemma ShareBounds(v: real, total: real)
    requires 0.0 <= v <= total && total > 0.0
    ensures 0.0 <= v / total <= 1.0
  {
  }

  /** With non-negative values and a positive total that is their sum, every share lies in [0, 1]. */
  lemma ShareInUnitInterval(values: seq<real>, k: int)
    requires forall i :: 0 <= i < |values| ==> values[i] >= 0.0
    requires 0 <= k < |values| && Sum(values) > 0.0
    ensures 0.0 <= Allocation(values[k], Sum(values)) <= 1.0
  {
    SumBoundsElement(values, k);
    ShareBounds(values[k], Sum(values));
  }

  /** Swapping current and target negates the gap. */
  lemma AllocationDiffAntisymmetric(a: real, b: real)
    ensures AllocationDiff(a, b) == -AllocationDiff(b, a)
  {
  }

  /** The total target of no categories is 0, and of a concatenation is the sum of both. */
  lemma TotalTargetAdditive(a: seq<CategoryWithStats>, b: seq<CategoryWithStats>)
    ensures TotalTargetAllocation([]) == 0.0
    ensures TotalTargetAllocation(a + b) == TotalTargetAllocation(a) + TotalTargetAllocation(b)
  {
    var ta := seq(|a|, i requires 0 <= i < |a| => a[i].category.targetAllocation);
    var tb := seq(|b|, i requires 0 <= i < |b| => b[i].category.targetAllocation);
    assert seq(|a + b|, i requires 0 <= i < |a + b| => (a + b)[i].category.targetAllocation) == ta + tb;
    SumConcat(ta, tb);
  }
}
