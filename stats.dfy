/** The statistics the engine computes over the samples of one interval, and
    the two-group combination formulas its merges use.  `mean` and `stddev`
    come from a `utils` module that is not part of this model; they are given
    their textbook meaning here (sample standard deviation, 0 for at most one
    value; mean 0 of no values). */
module Stats {
  import opened Features

  /** Sum of a sequence, accumulated from the front as Python's `sum` does. */
  function Sum(s: seq<real>): real
  {
    if |s| == 0 then 0.0 else Sum(s[..|s| - 1]) + s[|s| - 1]
  }

  /** Sum of the squares of a sequence. */
  function SumSquares(s: seq<real>): real
  {
    if |s| == 0 then 0.0 else SumSquares(s[..|s| - 1]) + s[|s| - 1] * s[|s| - 1]
  }

  function Mean(s: seq<real>): real
  {
    if |s| == 0 then 0.0 else Sum(s) / (|s| as real)
  }

  /** Sum of the squared deviations of the values of `s` from `c`. */
  function SumSqDev(s: seq<real>, c: real): real
  {
    if |s| == 0 then 0.0 else SumSqDev(s[..|s| - 1], c) + (s[|s| - 1] - c) * (s[|s| - 1] - c)
  }

  /** Sample standard deviation (divides by n - 1), 0 for at most one value. */
  function StdDev(s: seq<real>, sqrt: real -> real): real
  {
    if |s| <= 1 then 0.0 else sqrt(SumSqDev(s, Mean(s)) / ((|s| - 1) as real))
  }

  /** Python's `min` of a non-empty list. */
  function Min(s: seq<real>): (m: real)
    requires |s| > 0
    ensures m in s
    ensures forall i :: 0 <= i < |s| ==> m <= s[i]
  {
    if |s| == 1 then s[0]
    else
      var m' := Min(s[..|s| - 1]);
      assert forall i :: 0 <= i < |s| - 1 ==> s[..|s| - 1][i] == s[i];
      if s[|s| - 1] < m' then s[|s| - 1] else m'
  }

  /** Python's `max` of a non-empty list. */
  function Max(s: seq<real>): (m: real)
    requires |s| > 0
    ensures m in s
    ensures forall i :: 0 <= i < |s| ==> s[i] <= m
  {
    if |s| == 1 then s[0]
    else
      var m' := Max(s[..|s| - 1]);
      assert forall i :: 0 <= i < |s| - 1 ==> s[..|s| - 1][i] == s[i];
      if s[|s| - 1] > m' then s[|s| - 1] else m'
  }

  /** The values of `s` that pass the validity test `p`, in order. */
  function Keep(s: seq<real>, p: real -> bool): (r: seq<real>)
    ensures |r| <= |s|
    ensures forall i :: 0 <= i < |r| ==> p(r[i])
  {
    if |s| == 0 then [] else Keep(s[..|s| - 1], p) + (if p(s[|s| - 1]) then [s[|s| - 1]] else [])
  }

  // ---------------------------------------------------------------------
  // Facts about the statistics of one sequence
  // ---------------------------------------------------------------------

  /** Filtering two consecutive slices separately gives the filter of the
      whole: reading a series in chunks neither skips nor repeats a value. */
  lemma {:induction false} KeepConcat(a: seq<real>, b: seq<real>, p: real -> bool)
    ensures Keep(a + b, p) == Keep(a, p) + Keep(b, p)
    decreases |b|
  {
    if |b| == 0 {
      assert a + b == a;
    } else {
      assert (a + b)[..|a + b| - 1] == a + b[..|b| - 1];
      KeepConcat(a, b[..|b| - 1], p);
    }
  }

  /** A value is kept exactly when it occurs in `s` and passes `p`. */
  lemma {:induction false} KeepMembers(s: seq<real>, p: real -> bool, x: real)
    ensures x in Keep(s, p) <==> x in s && p(x)
  {
    if |s| > 0 {
      KeepMembers(s[..|s| - 1], p, x);
      assert s == s[..|s| - 1] + [s[|s| - 1]];
    }
  }

  lemma {:induction false} SumConcat(a: seq<real>, b: seq<real>)
    ensures Sum(a + b) == Sum(a) + Sum(b)
    decreases |b|
  {
    if |b| == 0 {
      assert a + b == a;
    } else {
      assert (a + b)[..|a + b| - 1] == a + b[..|b| - 1];
      SumConcat(a, b[..|b| - 1]);
    }
  }

  lemma {:induction false} SumSqDevConcat(a: seq<real>, b: seq<real>, c: real)
    ensures SumSqDev(a + b, c) == SumSqDev(a, c) + SumSqDev(b, c)
    decreases |b|
  {
    if |b| == 0 {
      assert a + b == a;
    } else {
      assert (a + b)[..|a + b| - 1] == a + b[..|b| - 1];
      SumSqDevConcat(a, b[..|b| - 1], c);
    }
  }

  lemma {:induction false} SumSqDevNonNegative(s: seq<real>, c: real)
    ensures SumSqDev(s, c) >= 0.0
  {
    if |s| > 0 {
      SumSqDevNonNegative(s[..|s| - 1], c);
      var d := s[|s| - 1] - c;
      assert d * d >= 0.0;
    }
  }

  /** SumSqDev(s, c) = Σx² - 2c·Σx + n·c². */
  lemma {:induction false} SumSqDevExpand(s: seq<real>, c: real)
    ensures SumSqDev(s, c) == SumSquares(s) - 2.0 * c * Sum(s) + (|s| as real) * c * c
  {
    if |s| > 0 {
      var s' := s[..|s| - 1];
      var x := s[|s| - 1];
      SumSqDevExpand(s', c);
      assert (x - c) * (x - c) == x * x - 2.0 * c * x + c * c;
      assert (|s| as real) * c * c == (|s'| as real) * c * c + c * c;
    }
  }

  /** The deviation from any centre splits into the deviation from the mean
      plus n times the squared distance between mean and centre. */
  lemma SumSqDevShift(s: seq<real>, c: real)
    ensures SumSqDev(s, c) == SumSqDev(s, Mean(s)) + (|s| as real) * (Mean(s) - c) * (Mean(s) - c)
  {
    var m := Mean(s);
    var n := |s| as real;
    SumSqDevExpand(s, c);
    SumSqDevExpand(s, m);
    if |s| > 0 {
      assert Sum(s) == n * m;
      calc {
        SumSqDev(s, c) - SumSqDev(s, m);
        -2.0 * c * Sum(s) + n * c * c + 2.0 * m * Sum(s) - n * m * m;
        { assert 2.0 * m * Sum(s) == 2.0 * n * m * m; assert 2.0 * c * Sum(s) == 2.0 * n * m * c; }
        n * m * m - 2.0 * n * m * c + n * c * c;
        n * (m - c) * (m - c);
      }
    }
  }

  /** (n - 1)·sd² recovers the sum of squared deviations from the mean. */
  lemma StdDevSquared(s: seq<real>, sqrt: real -> real)
    requires IsSqrt(sqrt)
    ensures ((|s| as real) - 1.0) * StdDev(s, sqrt) * StdDev(s, sqrt) == if |s| == 0 then 0.0 else SumSqDev(s, Mean(s))
    ensures StdDev(s, sqrt) >= 0.0
  {
    if |s| == 1 {
      SingletonSpread(s);
    } else if |s| > 1 {
      SumSqDevNonNegative(s, Mean(s));
      assert ((|s| - 1) as real) == (|s| as real) - 1.0;
      ScaledSquareOfRoot(sqrt, |s| as real, SumSqDev(s, Mean(s)), StdDev(s, sqrt));
    }
  }

  /** A single value does not deviate from its own mean. */
  lemma SingletonSpread(s: seq<real>)
    requires |s| == 1
    ensures SumSqDev(s, Mean(s)) == 0.0
  {
    assert s[..0] == [];
    assert Sum(s) == s[0];
    assert Mean(s) == s[0];
  }

  /** A deviation that is the root of `total / (n - 1)` recovers `total`. */
  lemma ScaledSquareOfRoot(sqrt: real -> real, n: real, total: real, sd: real)
    requires IsSqrt(sqrt) && n > 1.0 && total >= 0.0 && sd == sqrt(total / (n - 1.0))
    ensures sd >= 0.0 && (n - 1.0) * sd * sd == total
  {
    var k := n - 1.0;
    assert sd * sd == total / k;
    assert k * (total / k) == total;
    assert k * sd * sd == k * (sd * sd);
  }

  lemma {:induction false} MinConcat(a: seq<real>, b: seq<real>)
    requires |a| > 0 && |b| > 0
    ensures Min(a + b) == if Min(a) < Min(b) then Min(a) else Min(b)
  {
    var m := Min(a + b);
    var k :| 0 <= k < |a + b| && (a + b)[k] == m;
    assert forall i :: 0 <= i < |a| ==> (a + b)[i] == a[i];
    assert forall i :: 0 <= i < |b| ==> (a + b)[|a| + i] == b[i];
    var ia :| 0 <= ia < |a| && a[ia] == Min(a);
    var ib :| 0 <= ib < |b| && b[ib] == Min(b);
    assert m <= (a + b)[ia] && m <= (a + b)[|a| + ib];
    if k < |a| { assert Min(a) <= a[k]; } else { assert Min(b) <= b[k - |a|]; }
  }

  lemma {:induction false} MaxConcat(a: seq<real>, b: seq<real>)
    requires |a| > 0 && |b| > 0
    ensures Max(a + b) == if Max(a) > Max(b) then Max(a) else Max(b)
  {
    var m := Max(a + b);
    var k :| 0 <= k < |a + b| && (a + b)[k] == m;
    assert forall i :: 0 <= i < |a| ==> (a + b)[i] == a[i];
    assert forall i :: 0 <= i < |b| ==> (a + b)[|a| + i] == b[i];
    var ia :| 0 <= ia < |a| && a[ia] == Max(a);
    var ib :| 0 <= ib < |b| && b[ib] == Max(b);
    assert (a + b)[ia] <= m && (a + b)[|a| + ib] <= m;
    if k < |a| { assert a[k] <= Max(a); } else { assert b[k - |a|] <= Max(b); }
  }

  lemma MeanTimesCount(s: seq<real>)
    ensures (|s| as real) * Mean(s) == Sum(s)
  {
  }

  // Real-arithmetic steps the solver does not find in a larger context.

  lemma DivNonNegative(a: real, b: real)
    requires a >= 0.0 && b > 0.0
    ensures a / b >= 0.0
  {
  }

  lemma DivOrder(a: real, b: real, c: real)
    requires c > 0.0 && a >= b
    ensures a / c >= b / c
  {
  }

  lemma ZeroProduct(a: real, b: real)
    requires a * b == 0.0 && b != 0.0
    ensures a == 0.0
  {
  }

  // ---------------------------------------------------------------------
  // Two-group combination (the merge formulas)
  // ---------------------------------------------------------------------

  /** The count-weighted mean of two groups, 0 when no value is counted. */
  function WeightedMean(t1: real, m1: real, t2: real, m2: real): (r: real)
    ensures t1 + t2 == 0.0 ==> r == 0.0
    ensures t1 + t2 != 0.0 ==> r * (t1 + t2) == t1 * m1 + t2 * m2
  {
    if t1 + t2 != 0.0 then (t1 * m1 + t2 * m2) / (t1 + t2) else 0.0
  }

  /** The summary of one group as a feature dictionary keeps it:
      its count, its mean and its standard deviation. */
  datatype Group = Group(count: real, mean: real, sd: real)

  function GroupOf(s: seq<real>, sqrt: real -> real): Group
  {
    Group(|s| as real, Mean(s), StdDev(s, sqrt))
  }

  /** What one group adds to the pooled sum of squares around `centre`;
      a group whose count is not positive adds nothing. */
  function Contribution(g: Group, centre: real): real
  {
    if g.count > 0.0 then (g.count - 1.0) * g.sd * g.sd + g.count * (g.mean - centre) * (g.mean - centre) else 0.0
  }

  /** What one group adds to the pooled count. */
  function Weight(g: Group): real
  {
    if g.count > 0.0 then g.count else 0.0
  }

  /** The pooled standard deviation of two groups around `centre`
      (the arithmetic of `aggregatestddevfeat`). */
  function PooledStdDev(p: Group, a: Group, centre: real, sqrt: real -> real): (r: real)
    ensures Weight(p) + Weight(a) <= 1.0 ==> r == 0.0
    ensures Weight(p) + Weight(a) > 1.0 ==>
      r == sqrt((Contribution(p, centre) + Contribution(a, centre)) / (Weight(p) + Weight(a) - 1.0))
  {
    var num := Contribution(p, centre) + Contribution(a, centre);
    var den := Weight(p) + Weight(a);
    if den > 1.0 then sqrt(num / (den - 1.0)) else 0.0
  }

  // ---------------------------------------------------------------------
  // Facts about the combination formulas
  // ---------------------------------------------------------------------

  lemma WeightedMeanSymmetric(t1: real, m1: real, t2: real, m2: real)
    ensures WeightedMean(t1, m1, t2, m2) == WeightedMean(t2, m2, t1, m1)
  {
  }

  /** A group with count 0 leaves the other group's mean as it is. */
  lemma WeightedMeanOfEmptyGroup(t1: real, m1: real, m2: real)
    requires t1 != 0.0
    ensures WeightedMean(t1, m1, 0.0, m2) == m1
  {
  }

  /** With non-negative counts the weighted mean lies between the two means. */
  lemma WeightedMeanBetween(t1: real, m1: real, t2: real, m2: real)
    requires t1 >= 0.0 && t2 >= 0.0 && t1 + t2 > 0.0
    ensures (if m1 < m2 then m1 else m2) <= WeightedMean(t1, m1, t2, m2) <= (if m1 < m2 then m2 else m1)
  {
    var lo := if m1 < m2 then m1 else m2;
    var hi := if m1 < m2 then m2 else m1;
    var d := t1 + t2;
    assert t1 * (m1 - lo) >= 0.0 && t2 * (m2 - lo) >= 0.0;
    assert t1 * (hi - m1) >= 0.0 && t2 * (hi - m2) >= 0.0;
    DivOrder(t1 * m1 + t2 * m2, lo * d, d);
    DivOrder(hi * d, t1 * m1 + t2 * m2, d);
    assert lo * d / d == lo && hi * d / d == hi;
  }

  /** The weighted mean of two groups' means is the mean of their union. */
  lemma MeanConcat(a: seq<real>, b: seq<real>)
    ensures Mean(a + b) == WeightedMean(|a| as real, Mean(a), |b| as real, Mean(b))
  {
    var na, nb := |a| as real, |b| as real;
    if |a| + |b| > 0 {
      SumConcat(a, b);
      MeanTimesCount(a);
      MeanTimesCount(b);
      var x, y := Sum(a), Sum(b);
      assert na * Mean(a) == x && nb * Mean(b) == y;
      assert |a + b| as real == na + nb;
      assert Mean(a + b) == (x + y) / (na + nb);
      assert WeightedMean(na, Mean(a), nb, Mean(b)) == (x + y) / (na + nb);
    }
  }

  /** Two non-negative reals with the same square are equal. */
  lemma SquareRootUnique(x: real, y: real)
    requires x >= 0.0 && y >= 0.0 && x * x == y * y
    ensures x == y
  {
    assert (x - y) * (x + y) == 0.0;
    if x + y != 0.0 {
      ZeroProduct(x - y, x + y);
    }
  }

  /** When the combined count exceeds one and the pooled sum of squares is
      non-negative, the square of the result is that sum over count - 1. */
  lemma PooledStdDevSquared(p: Group, a: Group, centre: real, sqrt: real -> real)
    requires IsSqrt(sqrt)
    requires Weight(p) + Weight(a) > 1.0
    requires Contribution(p, centre) + Contribution(a, centre) >= 0.0
    ensures PooledStdDev(p, a, centre, sqrt) >= 0.0
    ensures PooledStdDev(p, a, centre, sqrt) * PooledStdDev(p, a, centre, sqrt)
         == (Contribution(p, centre) + Contribution(a, centre)) / (Weight(p) + Weight(a) - 1.0)
  {
    DivNonNegative(Contribution(p, centre) + Contribution(a, centre), Weight(p) + Weight(a) - 1.0);
  }

  /** Pooling a group of more than one value with an empty group around the
      group's own mean returns the group's own standard deviation. */
  lemma PooledStdDevOfOneGroup(p: Group, a: Group, sqrt: real -> real)
    requires IsSqrt(sqrt)
    requires p.count > 1.0 && p.sd >= 0.0 && a.count <= 0.0
    ensures PooledStdDev(p, a, p.mean, sqrt) == p.sd
    ensures PooledStdDev(a, p, p.mean, sqrt) == p.sd
  {
    var r := PooledStdDev(p, a, p.mean, sqrt);
    assert Contribution(p, p.mean) == (p.count - 1.0) * p.sd * p.sd;
    var q := (p.count - 1.0) * p.sd * p.sd / (p.count - 1.0);
    assert q == p.sd * p.sd;
    assert r == sqrt(q);
    assert r >= 0.0 && r * r == p.sd * p.sd;
    SquareRootUnique(r, p.sd);
  }

  /** One group's contribution around any centre is the sum of squared
      deviations of its values from that centre. */
  lemma ContributionOfData(s: seq<real>, centre: real, sqrt: real -> real)
    requires IsSqrt(sqrt)
    ensures Contribution(GroupOf(s, sqrt), centre) == SumSqDev(s, centre)
    ensures Weight(GroupOf(s, sqrt)) == |s| as real
  {
    if |s| > 0 {
      StdDevSquared(s, sqrt);
      ContributionOfSpread(s, centre, StdDev(s, sqrt));
    }
  }

  /** The contribution of a non-empty series summarised with any deviation
      `sd` whose square times n - 1 gives back its squared deviations from
      the mean. */
  lemma ContributionOfSpread(s: seq<real>, centre: real, sd: real)
    requires |s| > 0 && ((|s| as real) - 1.0) * sd * sd == SumSqDev(s, Mean(s))
    ensures Contribution(Group(|s| as real, Mean(s), sd), centre) == SumSqDev(s, centre)
  {
    SumSqDevShift(s, centre);
    ContributionOfSummary(|s| as real, Mean(s), sd, centre, SumSqDev(s, Mean(s)), SumSqDev(s, centre));
  }

  /** The same with the series summarised by plain numbers. */
  lemma ContributionOfSummary(n: real, m: real, sd: real, centre: real, own: real, total: real)
    requires n > 0.0 && (n - 1.0) * sd * sd == own && total == own + n * (m - centre) * (m - centre)
    ensures Contribution(Group(n, m, sd), centre) == total
  {
  }

  /** Merge exactness: pooling the summaries of two data sets around their
      weighted mean gives exactly the standard deviation of the union, so
      folding intervals one by one reproduces the statistics of the whole
      session however it is cut into intervals. */
  lemma PooledStdDevExact(a: seq<real>, b: seq<real>, sqrt: real -> real)
    requires IsSqrt(sqrt)
    ensures PooledStdDev(GroupOf(a, sqrt), GroupOf(b, sqrt),
                         WeightedMean(|a| as real, Mean(a), |b| as real, Mean(b)), sqrt)
         == StdDev(a + b, sqrt)
  {
    MeanConcat(a, b);
    var m := Mean(a + b);
    ContributionOfData(a, m, sqrt);
    ContributionOfData(b, m, sqrt);
    SumSqDevConcat(a, b, m);
  }
}
