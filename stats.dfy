/**
 * The small statistics the tracker computes over implied-volatility histories:
 * strict-below percentile rank, mean, minimum and maximum, `statistics.median`
 * and Python's `round(x, n)`.
 */
module Stats {
  import opened Sorting

  /** How many values lie strictly below `x`. */
  function CountBelow(vals: seq<real>, x: real): (n: nat)
    ensures n <= |vals|
    decreases |vals|
  {
    if vals == [] then 0
    else CountBelow(vals[..|vals| - 1], x) + (if vals[|vals| - 1] < x then 1 else 0)
  }

  /** A value of the list is never strictly below itself, so it is not counted. */
  lemma {:induction false} CountBelowMember(vals: seq<real>, x: real)
    ensures x in vals ==> CountBelow(vals, x) < |vals|
    decreases |vals|
  {
    if x !in vals { return; }
    var init := vals[..|vals| - 1];
    if vals[|vals| - 1] != x {
      assert x in init by {
        var i :| 0 <= i < |vals| && vals[i] == x;
        assert init[i] == x;
      }
      CountBelowMember(init, x);
    }
  }

  lemma {:induction false} CountBelowConcat(a: seq<real>, b: seq<real>, x: real)
    ensures CountBelow(a + b, x) == CountBelow(a, x) + CountBelow(b, x)
    decreases |b|
  {
    if b == [] {
      assert a + b == a;
    } else {
      var init := b[..|b| - 1];
      assert (a + b)[..|a + b| - 1] == a + init;
      CountBelowConcat(a, init, x);
    }
  }

  /** The count does not depend on the order of the values. */
  lemma {:induction false} CountBelowPermutation(a: seq<real>, b: seq<real>, x: real)
    requires multiset(a) == multiset(b)
    ensures CountBelow(a, x) == CountBelow(b, x)
    decreases |a|
  {
    if a == [] {
      assert |b| == |multiset(b)| == 0;
    } else {
      var init := a[..|a| - 1];
      var y := a[|a| - 1];
      assert a == init + [y];
      assert y in multiset(b);
      var j :| 0 <= j < |b| && b[j] == y;
      var rest := b[..j] + b[j + 1..];
      assert b == b[..j] + [y] + b[j + 1..];
      assert multiset(rest) == multiset(b) - multiset{y};
      assert multiset(init) == multiset(a) - multiset{y};
      CountBelowPermutation(init, rest, x);
      CountBelowConcat(b[..j] + [y], b[j + 1..], x);
      CountBelowConcat(b[..j], [y], x);
      CountBelowConcat(b[..j], b[j + 1..], x);
      assert CountBelow([y], x) == (if y < x then 1 else 0) by {
        assert [y][..0] == [];
      }
    }
  }

  /** `below / len(vals) * 100`: the share of the history strictly below `x`, in percent. */
  function PercentBelow(vals: seq<real>, x: real): (p: real)
    requires vals != []
    ensures 0.0 <= p <= 100.0
    ensures x in vals ==> p < 100.0
  {
    CountBelowMember(vals, x);
    var c := CountBelow(vals, x);
    assert c as real / |vals| as real <= 1.0;
    c as real / |vals| as real * 100.0
  }

  function Sum(vals: seq<real>): real
    decreases |vals|
  {
    if vals == [] then 0.0 else Sum(vals[..|vals| - 1]) + vals[|vals| - 1]
  }

  /** `statistics.mean` */
  function Mean(vals: seq<real>): real
    requires vals != []
  {
    Sum(vals) / |vals| as real
  }

  lemma {:induction false} SumBounds(vals: seq<real>, lo: real, hi: real)
    requires forall i :: 0 <= i < |vals| ==> lo <= vals[i] <= hi
    ensures |vals| as real * lo <= Sum(vals) <= |vals| as real * hi
    decreases |vals|
  {
    if vals != [] {
      var init := vals[..|vals| - 1];
      assert forall i :: 0 <= i < |init| ==> lo <= init[i] <= hi by {
        forall i | 0 <= i < |init| ensures lo <= init[i] <= hi {
          assert init[i] == vals[i];
        }
      }
      SumBounds(init, lo, hi);
      assert |vals| as real * lo == |init| as real * lo + lo;
      assert |vals| as real * hi == |init| as real * hi + hi;
    }
  }

  lemma QuotientBounds(s: real, n: real, lo: real, hi: real)
    requires n > 0.0 && n * lo <= s <= n * hi
    ensures lo <= s / n <= hi
  {
    assert s / n * n == s;
  }

  /** The mean of a constant list is that constant. */
  lemma MeanOfConstant(vals: seq<real>, c: real)
    requires vals != [] && forall i :: 0 <= i < |vals| ==> vals[i] == c
    ensures Mean(vals) == c
  {
    SumBounds(vals, c, c);
    QuotientBounds(Sum(vals), |vals| as real, c, c);
  }

  /** `min(vals)` */
  function MinOf(vals: seq<real>): (m: real)
    requires vals != []
    ensures m in vals
    ensures forall v :: v in vals ==> m <= v
    decreases |vals|
  {
    if |vals| == 1 then vals[0]
    else
      var m := MinOf(vals[1..]);
      assert vals == [vals[0]] + vals[1..];
      if vals[0] <= m then vals[0] else m
  }

  /** `max(vals)` */
  function MaxOf(vals: seq<real>): (m: real)
    requires vals != []
    ensures m in vals
    ensures forall v :: v in vals ==> v <= m
    decreases |vals|
  {
    if |vals| == 1 then vals[0]
    else
      var m := MaxOf(vals[1..]);
      assert vals == [vals[0]] + vals[1..];
      if vals[0] >= m then vals[0] else m
  }

  /** The mean lies between the smallest and the largest value. */
  lemma MeanBounds(vals: seq<real>)
    requires vals != []
    ensures MinOf(vals) <= Mean(vals) <= MaxOf(vals)
  {
    var lo, hi := MinOf(vals), MaxOf(vals);
    assert forall i :: 0 <= i < |vals| ==> lo <= vals[i] <= hi by {
      forall i | 0 <= i < |vals| ensures lo <= vals[i] <= hi {
        assert vals[i] in vals;
      }
    }
    SumBounds(vals, lo, hi);
    QuotientBounds(Sum(vals), |vals| as real, lo, hi);
  }

  function RealLe(a: real, b: real): bool { a <= b }

  /** `statistics.median`: the middle of the sorted values, or the mean of the two middle ones. */
  function Median(vals: seq<real>): real
    requires vals != []
  {
    var s := SortBy(vals, RealLe);
    var n := |s|;
    if n % 2 == 1 then s[n / 2] else (s[n / 2 - 1] + s[n / 2]) / 2.0
  }

  /** The median lies between the smallest and the largest value. */
  lemma MedianBounds(vals: seq<real>)
    requires vals != []
    ensures MinOf(vals) <= Median(vals) <= MaxOf(vals)
  {
    var s := SortBy(vals, RealLe);
    var n := |s|;
    SortByMembers(vals, RealLe, s[n / 2]);
    if n % 2 == 0 {
      SortByMembers(vals, RealLe, s[n / 2 - 1]);
    }
  }

  function Pow10(n: nat): (p: int)
    ensures p >= 1
  {
    if n == 0 then 1 else 10 * Pow10(n - 1)
  }

  /** Rounding to the nearest integer, ties to the even neighbour. */
  function RoundHalfEven(y: real): int {
    var f := y.Floor;
    var frac := y - f as real;
    if frac > 0.5 then f + 1
    else if frac < 0.5 then f
    else if f % 2 == 0 then f else f + 1
  }

  /** `round(x, places)` on the exact value: half-even at exact ties. */
  function Round(x: real, places: nat): real {
    RoundScaled(x, Pow10(places) as real)
  }

  /** Rounding to a multiple of `1 / p`. */
  function RoundScaled(x: real, p: real): real
    requires p > 0.0
  {
    RoundHalfEven(x * p) as real / p
  }

  lemma RoundHalfEvenMonotone(x: real, y: real)
    requires x <= y
    ensures RoundHalfEven(x) <= RoundHalfEven(y)
  {
    assert x.Floor <= y.Floor;
  }

  lemma MulMonotone(x: real, y: real, p: real)
    requires x <= y && p > 0.0
    ensures x * p <= y * p
  {
  }

  lemma IntDivMonotone(a: int, b: int, p: real)
    requires a <= b && p > 0.0
    ensures a as real / p <= b as real / p
  {
  }

  lemma ScaledRoundMonotone(x: real, y: real, p: real)
    requires x <= y && p >= 1.0
    ensures RoundScaled(x, p) <= RoundScaled(y, p)
  {
    var xp := x * p;
    var yp := y * p;
    MulMonotone(x, y, p);
    RoundHalfEvenMonotone(xp, yp);
    var a := RoundHalfEven(xp);
    var b := RoundHalfEven(yp);
    IntDivMonotone(a, b, p);
  }

  /** Rounding keeps the order of its arguments. */
  lemma RoundMonotone(x: real, y: real, places: nat)
    requires x <= y
    ensures Round(x, places) <= Round(y, places)
  {
    ScaledRoundMonotone(x, y, Pow10(places) as real);
  }

  lemma Cancel(k: real, p: real)
    requires p > 0.0
    ensures k * p / p == k
  {
  }

  lemma RoundScaledInteger(k: int, p: int)
    requires p >= 1
    ensures RoundScaled(k as real, p as real) == k as real
  {
    var kp := k as real * p as real;
    assert kp == (k * p) as real;
    assert RoundHalfEven(kp) == k * p;
    Cancel(k as real, p as real);
  }

  /** Whole numbers are unchanged by rounding. */
  lemma RoundInteger(k: int, places: nat)
    ensures Round(k as real, places) == k as real
  {
    RoundScaledInteger(k, Pow10(places));
  }

  /** A percentage rounded to any number of places is still a percentage. */
  lemma RoundPercent(p: real, places: nat)
    requires 0.0 <= p <= 100.0
    ensures 0.0 <= Round(p, places) <= 100.0
  {
    RoundMonotone(0.0, p, places);
    RoundMonotone(p, 100.0, places);
    RoundInteger(0, places);
    RoundInteger(100, places);
  }
}
