/** The merge engine: folding the feature dictionary of one interval (`p`,
    the part) into an accumulator dictionary (`a`), as the module-level
    helpers `sumfeat`, `weightedmeanfeat`, `aggregatestddevfeat`, `minfeat`
    and `maxfeat` and the four `merge_*` methods of `EMDATComponent` do.

    The Python methods write into the accumulator dictionary step by step
    and stop at the first exception, so a failed merge leaves the writes
    made before the failing lookup in place.  A merge is modelled as a
    chain of `Assign` steps over a `Merged` state that carries the
    dictionary and the first error met, which keeps those partial writes. */
module Merge {
  import opened Features
  import opened Stats

  // ---------------------------------------------------------------------
  // The two-dictionary helpers
  // ---------------------------------------------------------------------

  /** `sumfeat`: the part's value plus the accumulator's value. */
  function SumFeat(p: FeatureMap, a: FeatureMap, k: Feature): (r: Result<real>)
    ensures r.Ok? <==> k in p && k in a
    ensures r.Ok? ==> r.value == p[k] + a[k]
    ensures r.Err? ==> r.error == MissingKey(k)
  {
    var x :- Get(p, k);
    var y :- Get(a, k);
    Ok(x + y)
  }

  /** `weightedmeanfeat`: the mean of the two groups weighted by their
      counts, read in the order part total, part rate, accumulator total,
      accumulator rate. */
  function WeightedMeanFeat(p: FeatureMap, a: FeatureMap, total: Feature, rate: Feature): (r: Result<real>)
    ensures r.Ok? <==> total in p && rate in p && total in a && rate in a
    ensures r.Ok? ==> r.value == WeightedMean(p[total], p[rate], a[total], a[rate])
    ensures r.Err? ==> r.error.MissingKey?
  {
    var tp :- Get(p, total);
    var mp :- Get(p, rate);
    var ta :- Get(a, total);
    var ma :- Get(a, rate);
    Ok(WeightedMean(tp, mp, ta, ma))
  }

  /** The summary of one side for the pooled deviation: the standard
      deviation and mean are looked up only when the count is positive. */
  function ReadGroup(m: FeatureMap, total: Feature, sd: Feature, mean: Feature): (r: Result<Group>)
    ensures r.Ok? <==> total in m && (m[total] > 0.0 ==> sd in m && mean in m)
    ensures r.Ok? ==> r.value.count == m[total]
    ensures r.Ok? && m[total] > 0.0 ==> r.value.mean == m[mean] && r.value.sd == m[sd]
    ensures r.Err? ==> r.error.MissingKey?
  {
    var t :- Get(m, total);
    if t > 0.0 then
      var s :- Get(m, sd);
      var mu :- Get(m, mean);
      Ok(Group(t, mu, s))
    else
      Ok(Group(t, 0.0, 0.0))
  }

  /** `aggregatestddevfeat`: the pooled standard deviation of the two
      groups around `centre`. */
  function AggregateStdDevFeat(p: FeatureMap, a: FeatureMap, total: Feature, sd: Feature, mean: Feature,
                               centre: real, sqrt: real -> real): (r: Result<real>)
    ensures r.Ok? <==> ReadGroup(p, total, sd, mean).Ok? && ReadGroup(a, total, sd, mean).Ok?
    ensures r.Ok? ==>
      r.value == PooledStdDev(ReadGroup(p, total, sd, mean).value, ReadGroup(a, total, sd, mean).value, centre, sqrt)
    ensures r.Err? ==> r.error.MissingKey?
  {
    var gp :- ReadGroup(p, total, sd, mean);
    var ga :- ReadGroup(a, total, sd, mean);
    Ok(PooledStdDev(gp, ga, centre, sqrt))
  }

  /** `minfeat`: the smaller of the two values.  The `nonevalue` argument
      is accepted and ignored, so a sentinel on either side wins. */
  function MinFeat(p: FeatureMap, a: FeatureMap, k: Feature, nonevalue: Option<real>): (r: Result<real>)
    ensures r.Ok? <==> k in p && k in a
    ensures r.Ok? ==> r.value <= p[k] && r.value <= a[k]
    ensures r.Ok? ==> r.value == p[k] || r.value == a[k]
    ensures r.Err? ==> r.error == MissingKey(k)
  {
    var x :- Get(p, k);
    var y :- Get(a, k);
    Ok(if x <= y then x else y)
  }

  /** `maxfeat`: the larger of the two values. */
  function MaxFeat(p: FeatureMap, a: FeatureMap, k: Feature): (r: Result<real>)
    ensures r.Ok? <==> k in p && k in a
    ensures r.Ok? ==> p[k] <= r.value && a[k] <= r.value
    ensures r.Ok? ==> r.value == p[k] || r.value == a[k]
    ensures r.Err? ==> r.error == MissingKey(k)
  {
    var x :- Get(p, k);
    var y :- Get(a, k);
    Ok(if x >= y then x else y)
  }

  // ---------------------------------------------------------------------
  // Facts about the helpers
  // ---------------------------------------------------------------------

  lemma SumFeatSymmetric(p: FeatureMap, a: FeatureMap, k: Feature)
    requires k in p && k in a
    ensures SumFeat(p, a, k) == SumFeat(a, p, k)
  {
  }

  lemma WeightedMeanFeatSymmetric(p: FeatureMap, a: FeatureMap, total: Feature, rate: Feature)
    requires total in p && rate in p && total in a && rate in a
    ensures WeightedMeanFeat(p, a, total, rate) == WeightedMeanFeat(a, p, total, rate)
  {
    WeightedMeanSymmetric(p[total], p[rate], a[total], a[rate]);
  }

  /** Merging into an accumulator that has counted nothing keeps the part's mean. */
  lemma WeightedMeanFeatOfEmptyAccumulator(p: FeatureMap, a: FeatureMap, total: Feature, rate: Feature)
    requires total in p && rate in p && total in a && rate in a
    requires p[total] != 0.0 && a[total] == 0.0
    ensures WeightedMeanFeat(p, a, total, rate) == Ok(p[rate])
  {
    WeightedMeanOfEmptyGroup(p[total], p[rate], a[rate]);
  }

  /** The pooled deviation is non-negative, 0 when at most one value is
      counted, and otherwise its square is the pooled sum of squares over
      count - 1. */
  lemma AggregateStdDevFeatSquared(p: FeatureMap, a: FeatureMap, total: Feature, sd: Feature, mean: Feature,
                                   centre: real, sqrt: real -> real)
    requires IsSqrt(sqrt)
    requires ReadGroup(p, total, sd, mean).Ok? && ReadGroup(a, total, sd, mean).Ok?
    requires p[total] > 0.0 ==> p[total] >= 1.0
    requires a[total] > 0.0 ==> a[total] >= 1.0
    ensures AggregateStdDevFeat(p, a, total, sd, mean, centre, sqrt).Ok?
    ensures AggregateStdDevFeat(p, a, total, sd, mean, centre, sqrt).value >= 0.0
    ensures Weight(ReadGroup(p, total, sd, mean).value) + Weight(ReadGroup(a, total, sd, mean).value) <= 1.0 ==>
              AggregateStdDevFeat(p, a, total, sd, mean, centre, sqrt).value == 0.0
    ensures var gp, ga := ReadGroup(p, total, sd, mean).value, ReadGroup(a, total, sd, mean).value;
            var r := AggregateStdDevFeat(p, a, total, sd, mean, centre, sqrt).value;
            Weight(gp) + Weight(ga) > 1.0 ==>
              r * r == (Contribution(gp, centre) + Contribution(ga, centre)) / (Weight(gp) + Weight(ga) - 1.0)
  {
    var gp, ga := ReadGroup(p, total, sd, mean).value, ReadGroup(a, total, sd, mean).value;
    ContributionNonNegative(gp, centre);
    ContributionNonNegative(ga, centre);
    if Weight(gp) + Weight(ga) > 1.0 {
      PooledStdDevSquared(gp, ga, centre, sqrt);
    }
  }

  lemma ContributionNonNegative(g: Group, centre: real)
    requires g.count > 0.0 ==> g.count >= 1.0
    ensures Contribution(g, centre) >= 0.0
  {
    if g.count > 0.0 {
      var d := g.mean - centre;
      assert (g.count - 1.0) * (g.sd * g.sd) >= 0.0;
      assert g.count * (d * d) >= 0.0;
      assert Contribution(g, centre) == (g.count - 1.0) * (g.sd * g.sd) + g.count * (d * d);
    }
  }

  /** Folding a part of more than one value into an accumulator that has
      counted nothing, around the part's own mean, returns the part's own
      standard deviation. */
  lemma AggregateStdDevFeatOfEmptyAccumulator(p: FeatureMap, a: FeatureMap, total: Feature, sd: Feature, mean: Feature,
                                              sqrt: real -> real)
    requires IsSqrt(sqrt)
    requires total in p && sd in p && mean in p && total in a
    requires p[total] > 1.0 && p[sd] >= 0.0 && a[total] <= 0.0
    ensures AggregateStdDevFeat(p, a, total, sd, mean, p[mean], sqrt) == Ok(p[sd])
  {
    PooledStdDevOfOneGroup(ReadGroup(p, total, sd, mean).value, ReadGroup(a, total, sd, mean).value, sqrt);
  }

  /** The `nonevalue` argument of `minfeat` makes no difference. */
  lemma MinFeatIgnoresNoneValue(p: FeatureMap, a: FeatureMap, k: Feature, v: Option<real>, w: Option<real>)
    ensures MinFeat(p, a, k, v) == MinFeat(p, a, k, w)
  {
  }

  // ---------------------------------------------------------------------
  // Step-by-step writes into the accumulator
  // ---------------------------------------------------------------------

  /** The accumulator dictionary part-way through a merge, with the first
      exception raised so far. */
  datatype Merged = Merged(acc: FeatureMap, err: Option<Error>)

  /** `acc[k] = v`: does nothing once an exception was raised, raises `v`'s
      error if computing `v` fails, and otherwise writes the value. */
  function Assign(m: Merged, k: Feature, v: Result<real>): Merged
  {
    if m.err.Some? then m
    else if v.Err? then Merged(m.acc, Some(v.error))
    else Merged(m.acc[k := v.value], None)
  }

  /** Computing a value that is stored only later: raises its error, if any. */
  function Check(m: Merged, v: Result<real>): Merged
  {
    if m.err.Some? || v.Ok? then m else Merged(m.acc, Some(v.error))
  }

  /** The value of a result whose error, if any, is already recorded. */
  function ValueOr(r: Result<real>, fallback: real): real
  {
    if r.Ok? then r.value else fallback
  }

  /** `b` agrees with `a` on every key outside `keys`. */
  predicate SameOutside(a: FeatureMap, b: FeatureMap, keys: set<Feature>)
  {
    forall k :: k !in keys ==> (k in a <==> k in b) && (k in a ==> a[k] == b[k])
  }

  // ---------------------------------------------------------------------
  // A group of count, mean, standard deviation, maximum and minimum
  // ---------------------------------------------------------------------

  /** The keys under which a dictionary keeps the statistics of one series. */
  datatype StatKeys = StatKeys(count: Feature, mean: Feature, sd: Feature, max: Feature, min: Feature)
  {
    function Keys(): set<Feature> { {count, mean, sd, max, min} }
    predicate Distinct() { |Keys()| == 5 }
  }

  const PupilSizeKeys := StatKeys(NumPupilSizes, MeanPupilSize, StddevPupilSize, MaxPupilSize, MinPupilSize)
  const PupilVelocityKeys := StatKeys(NumPupilVelocity, MeanPupilVelocity, StddevPupilVelocity, MaxPupilVelocity, MinPupilVelocity)
  const DistanceKeys := StatKeys(NumDistanceData, MeanDistance, StddevDistance, MaxDistance, MinDistance)

  predicate HasStatKeys(m: FeatureMap, ks: StatKeys)
  {
    ks.count in m && ks.mean in m && ks.sd in m && ks.max in m && ks.min in m
  }

  function GroupAt(m: FeatureMap, ks: StatKeys): Group
    requires HasStatKeys(m, ks)
  {
    Group(m[ks.count], m[ks.mean], m[ks.sd])
  }

  /** The group statistics as `merge_pupil_features` leaves them: for a
      positive combined count, the summed count, the weighted mean, the
      deviation pooled around that mean, the larger maximum and the smaller
      minimum; otherwise every statistic is the sentinel and the count is
      left as the accumulator had it. */
  predicate StatsMerged(p: FeatureMap, a: FeatureMap, b: FeatureMap, ks: StatKeys, sqrt: real -> real)
    requires HasStatKeys(p, ks) && HasStatKeys(a, ks)
  {
    HasStatKeys(b, ks) &&
    var n := p[ks.count] + a[ks.count];
    if n > 0.0 then
      && b[ks.count] == n
      && b[ks.mean] == WeightedMean(p[ks.count], p[ks.mean], a[ks.count], a[ks.mean])
      && b[ks.sd] == PooledStdDev(GroupAt(p, ks), GroupAt(a, ks), b[ks.mean], sqrt)
      && b[ks.max] == (if p[ks.max] >= a[ks.max] then p[ks.max] else a[ks.max])
      && b[ks.min] == (if p[ks.min] <= a[ks.min] then p[ks.min] else a[ks.min])
    else
      && b[ks.count] == a[ks.count]
      && b[ks.mean] == Sentinel && b[ks.sd] == Sentinel && b[ks.max] == Sentinel && b[ks.min] == Sentinel
  }

  /** One group of `merge_pupil_features` (lines 413-434 or 436-448) after
      its count `n` was summed. */
  function MergeStats(m: Merged, p: FeatureMap, ks: StatKeys, n: real, sqrt: real -> real): (r: Merged)
    requires ks.Distinct()
    ensures SameOutside(m.acc, r.acc, ks.Keys())
    ensures m.err.Some? ==> r == m
    ensures m.err.None? && HasStatKeys(p, ks) && HasStatKeys(m.acc, ks) && n == p[ks.count] + m.acc[ks.count] ==>
              r.err.None? && StatsMerged(p, m.acc, r.acc, ks, sqrt)
    ensures r.err.Some? ==> m.err.Some? || r.err.value.MissingKey?
  {
    if m.err.Some? then m
    else if n > 0.0 then
      var a := m.acc;
      var mean := WeightedMeanFeat(p, a, ks.count, ks.mean);
      var m1 := Check(m, mean);
      var m2 := Assign(m1, ks.sd, var mu :- mean; AggregateStdDevFeat(p, a, ks.count, ks.sd, ks.mean, mu, sqrt));
      var m3 := Assign(m2, ks.max, MaxFeat(p, a, ks.max));
      var m4 := Assign(m3, ks.min, MinFeat(p, a, ks.min, Some(Sentinel)));
      var m5 := Assign(m4, ks.mean, mean);
      Assign(m5, ks.count, Ok(n))
    else
      Merged(m.acc[ks.mean := Sentinel][ks.sd := Sentinel][ks.max := Sentinel][ks.min := Sentinel], None)
  }

  // ---------------------------------------------------------------------
  // The four merges
  // ---------------------------------------------------------------------

  const PupilKeys := PupilSizeKeys.Keys() + PupilVelocityKeys.Keys()
  const DistanceMergeKeys := DistanceKeys.Keys() + {MisspeltMeanDistance}
  const PathCountKeys := {NumFixDistances, NumAbsAngles, NumRelAngles}
  const PathStatisticKeys := {
    MeanPathDistance, SumPathDistance, StddevPathDistance, EyeMovementVelocity,
    SumAbsPathAngles, AbsPathAnglesRate, MeanAbsPathAngles, StddevAbsPathAngles,
    SumRelPathAngles, RelPathAnglesRate, MeanRelPathAngles, StddevRelPathAngles}
  const PathKeys := PathCountKeys + PathStatisticKeys
  const FixationKeys := {NumFixations, FixationRate, MeanFixationDuration, StddevFixationDuration, SumFixationDuration}

  /** `merge_pupil_features`: both counts are summed first, then the
      pupil-size group and the pupil-velocity group are merged in turn. */
  function MergePupil(p: FeatureMap, a: FeatureMap, sqrt: real -> real): (r: Merged)
    ensures SameOutside(a, r.acc, PupilKeys)
    ensures r.err.Some? ==> r.err.value.MissingKey?
  {
    var sizes := SumFeat(p, a, NumPupilSizes);
    var velocities := SumFeat(p, a, NumPupilVelocity);
    var m0 := Check(Check(Merged(a, None), sizes), velocities);
    assert PupilSizeKeys.Distinct() && PupilVelocityKeys.Distinct();
    var m1 := MergeStats(m0, p, PupilSizeKeys, ValueOr(sizes, 0.0), sqrt);
    MergeStats(m1, p, PupilVelocityKeys, ValueOr(velocities, 0.0), sqrt)
  }

  /** `b` agrees with `a` on every key of `keys`. */
  predicate AgreeOn(a: FeatureMap, b: FeatureMap, keys: set<Feature>)
  {
    forall k :: k in keys ==> (k in a <==> k in b) && (k in a ==> a[k] == b[k])
  }

  /** Whether a group was merged depends only on the group's own keys. */
  lemma StatsMergedTransfer(p: FeatureMap, a: FeatureMap, a': FeatureMap, b: FeatureMap, b': FeatureMap,
                            ks: StatKeys, sqrt: real -> real)
    requires HasStatKeys(p, ks) && HasStatKeys(a, ks)
    requires AgreeOn(a, a', ks.Keys()) && AgreeOn(b, b', ks.Keys())
    requires StatsMerged(p, a, b, ks, sqrt)
    ensures HasStatKeys(a', ks) && StatsMerged(p, a', b', ks, sqrt)
  {
    assert ks.count in ks.Keys() && ks.mean in ks.Keys() && ks.sd in ks.Keys();
    assert ks.max in ks.Keys() && ks.min in ks.Keys();
  }

  /** Maps that agree outside `keys` agree on any set disjoint from it. */
  lemma AgreeOutside(a: FeatureMap, b: FeatureMap, keys: set<Feature>, others: set<Feature>)
    requires SameOutside(a, b, keys) && keys !! others
    ensures AgreeOn(a, b, others)
  {
  }

  lemma PupilGroupsDisjoint()
    ensures PupilSizeKeys.Keys() !! PupilVelocityKeys.Keys()
  {
  }

  /** With every pupil key present on both sides the pupil merge raises
      nothing, and both groups end merged as `StatsMerged` states. */
  lemma MergePupilMerges(p: FeatureMap, a: FeatureMap, sqrt: real -> real)
    requires HasStatKeys(p, PupilSizeKeys) && HasStatKeys(a, PupilSizeKeys)
    requires HasStatKeys(p, PupilVelocityKeys) && HasStatKeys(a, PupilVelocityKeys)
    ensures MergePupil(p, a, sqrt).err.None?
    ensures StatsMerged(p, a, MergePupil(p, a, sqrt).acc, PupilSizeKeys, sqrt)
    ensures StatsMerged(p, a, MergePupil(p, a, sqrt).acc, PupilVelocityKeys, sqrt)
  {
    var sizes := SumFeat(p, a, NumPupilSizes);
    var velocities := SumFeat(p, a, NumPupilVelocity);
    var m0 := Check(Check(Merged(a, None), sizes), velocities);
    assert m0 == Merged(a, None);
    assert PupilSizeKeys.Distinct() && PupilVelocityKeys.Distinct();
    var m1 := MergeStats(m0, p, PupilSizeKeys, ValueOr(sizes, 0.0), sqrt);
    var r := MergeStats(m1, p, PupilVelocityKeys, ValueOr(velocities, 0.0), sqrt);
    assert r == MergePupil(p, a, sqrt);
    PupilGroupsDisjoint();
    AgreeOutside(a, m1.acc, PupilSizeKeys.Keys(), PupilVelocityKeys.Keys());
    StatsMergedTransfer(p, m1.acc, a, r.acc, r.acc, PupilVelocityKeys, sqrt);
    AgreeOutside(m1.acc, r.acc, PupilVelocityKeys.Keys(), PupilSizeKeys.Keys());
    StatsMergedTransfer(p, a, a, m1.acc, r.acc, PupilSizeKeys, sqrt);
  }

  /** `m` holds, under `ks`, the statistics an extractor computes from the
      valid values `s`: their count and, when there are any, their mean,
      standard deviation, maximum and minimum, or else the sentinel. */
  predicate Summarises(m: FeatureMap, ks: StatKeys, s: seq<real>, sqrt: real -> real)
  {
    && HasStatKeys(m, ks)
    && m[ks.count] == |s| as real
    && if |s| > 0 then
         m[ks.mean] == Mean(s) && m[ks.sd] == StdDev(s, sqrt) && m[ks.max] == Max(s) && m[ks.min] == Min(s)
       else
         m[ks.mean] == Sentinel && m[ks.sd] == Sentinel && m[ks.max] == Sentinel && m[ks.min] == Sentinel
  }

  /** Merge exactness: merging the summaries of two non-empty series gives
      the summary of the two series together, so folding intervals one by
      one into an accumulator reproduces the statistics of the whole
      session however it was cut into intervals. */
  lemma MergeStatsExact(p: FeatureMap, a: FeatureMap, b: FeatureMap, ks: StatKeys,
                        s: seq<real>, t: seq<real>, sqrt: real -> real)
    requires IsSqrt(sqrt)
    requires Summarises(p, ks, s, sqrt) && Summarises(a, ks, t, sqrt)
    requires |s| > 0 && |t| > 0
    requires StatsMerged(p, a, b, ks, sqrt)
    ensures Summarises(b, ks, s + t, sqrt)
  {
    MeanConcat(s, t);
    PooledStdDevExact(s, t, sqrt);
    MinConcat(s, t);
    MaxConcat(s, t);
    assert GroupAt(p, ks) == GroupOf(s, sqrt) && GroupAt(a, ks) == GroupOf(t, sqrt);
  }

  /** A side that counted nothing contributes nothing, whatever its mean
      and deviation hold. */
  lemma EmptySideIgnored(g: Group, g': Group, h: Group, centre: real, sqrt: real -> real)
    requires g.count == 0.0 && g'.count == 0.0
    ensures PooledStdDev(g, h, centre, sqrt) == PooledStdDev(g', h, centre, sqrt)
    ensures PooledStdDev(h, g, centre, sqrt) == PooledStdDev(h, g', centre, sqrt)
    ensures WeightedMean(g.count, g.mean, h.count, h.mean) == WeightedMean(g'.count, g'.mean, h.count, h.mean)
    ensures WeightedMean(h.count, h.mean, g.count, g.mean) == WeightedMean(h.count, h.mean, g'.count, g'.mean)
  {
  }

  /** The count, mean and deviation are exact even when one side counted
      nothing; only the minimum and maximum then take up the sentinel. */
  lemma MergeStatsMomentsExact(p: FeatureMap, a: FeatureMap, b: FeatureMap, ks: StatKeys,
                               s: seq<real>, t: seq<real>, sqrt: real -> real)
    requires IsSqrt(sqrt)
    requires Summarises(p, ks, s, sqrt) && Summarises(a, ks, t, sqrt)
    requires |s| + |t| > 0
    requires StatsMerged(p, a, b, ks, sqrt)
    ensures b[ks.count] == |s + t| as real
    ensures b[ks.mean] == Mean(s + t)
    ensures b[ks.sd] == StdDev(s + t, sqrt)
  {
    MeanConcat(s, t);
    PooledStdDevExact(s, t, sqrt);
    var gp, ga := GroupAt(p, ks), GroupAt(a, ks);
    var gs, gt := GroupOf(s, sqrt), GroupOf(t, sqrt);
    if |s| == 0 {
      assert ga == gt;
      EmptySideIgnored(gp, gs, ga, b[ks.mean], sqrt);
    } else if |t| == 0 {
      assert gp == gs;
      EmptySideIgnored(ga, gt, gp, b[ks.mean], sqrt);
    } else {
      assert gp == gs && ga == gt;
    }
  }

  /** Because `minfeat` ignores its `nonevalue`, merging any pupil data
      into a freshly initialised accumulator drives the minimum to the
      sentinel or below. */
  lemma MergePupilIntoFreshMinimum(p: FeatureMap, a: FeatureMap, sqrt: real -> real)
    requires IsFreshAccumulator(a)
    requires HasStatKeys(p, PupilSizeKeys) && HasStatKeys(p, PupilVelocityKeys)
    requires p[NumPupilSizes] > 0.0 && p[NumPupilVelocity] > 0.0
    ensures MergePupil(p, a, sqrt).err.None?
    ensures MergePupil(p, a, sqrt).acc[MinPupilSize] <= Sentinel
    ensures MergePupil(p, a, sqrt).acc[MinPupilVelocity] <= Sentinel
  {
    assert !IsIntervalOnly(MinPupilSize) && !IsCount(MinPupilSize);
    assert !IsIntervalOnly(MinPupilVelocity) && !IsCount(MinPupilVelocity);
    assert HasStatKeys(a, PupilSizeKeys) && HasStatKeys(a, PupilVelocityKeys);
    MergePupilMerges(p, a, sqrt);
  }

  // ---------------------------------------------------------------------
  // Distance merge
  // ---------------------------------------------------------------------

  /** `merge_distance_features`.  As written it pools the deviation around
      the accumulator's mean from before the merge, stores the new mean
      under the misspelt key 'mean_distance', and never updates
      'meandistance' when the combined count is positive. */
  function MergeDistance(p: FeatureMap, a: FeatureMap, sqrt: real -> real): (r: Merged)
    ensures SameOutside(a, r.acc, DistanceMergeKeys)
    ensures r.err.Some? ==> r.err.value.MissingKey?
  {
    var n := SumFeat(p, a, NumDistanceData);
    var m0 := Check(Merged(a, None), n);
    if m0.err.Some? then m0
    else if n.value > 0.0 then
      var current := Get(a, MeanDistance);
      var m1 := Check(m0, current);
      var mean := WeightedMeanFeat(p, a, NumDistanceData, MeanDistance);
      var m2 := Check(m1, mean);
      var m3 := Assign(m2, StddevDistance,
                       var c :- current; AggregateStdDevFeat(p, a, NumDistanceData, StddevDistance, MeanDistance, c, sqrt));
      var m4 := Assign(m3, MaxDistance, MaxFeat(p, a, MaxDistance));
      var m5 := Assign(m4, MinDistance, MinFeat(p, a, MinDistance, Some(Sentinel)));
      var m6 := Assign(m5, MisspeltMeanDistance, mean);
      Assign(m6, NumDistanceData, n)
    else
      Merged(a[MeanDistance := Sentinel][StddevDistance := Sentinel][MaxDistance := Sentinel][MinDistance := Sentinel], None)
  }

  /** With every distance key present the distance merge raises nothing;
      for a positive combined count it sums the counts, stores the weighted
      mean under the misspelt key, leaves 'meandistance' as it was, pools
      the deviation around that stale mean and takes the larger maximum and
      smaller minimum; otherwise the four statistics become the sentinel. */
  lemma MergeDistanceMerges(p: FeatureMap, a: FeatureMap, sqrt: real -> real)
    requires HasStatKeys(p, DistanceKeys) && HasStatKeys(a, DistanceKeys)
    ensures var r := MergeDistance(p, a, sqrt);
      && r.err.None?
      && HasStatKeys(r.acc, DistanceKeys)
      && var n := p[NumDistanceData] + a[NumDistanceData];
         if n > 0.0 then
           && r.acc[NumDistanceData] == n
           && r.acc[MeanDistance] == a[MeanDistance]
           && MisspeltMeanDistance in r.acc
           && r.acc[MisspeltMeanDistance] == WeightedMean(p[NumDistanceData], p[MeanDistance], a[NumDistanceData], a[MeanDistance])
           && r.acc[StddevDistance] == PooledStdDev(GroupAt(p, DistanceKeys), GroupAt(a, DistanceKeys), a[MeanDistance], sqrt)
           && r.acc[MaxDistance] == (if p[MaxDistance] >= a[MaxDistance] then p[MaxDistance] else a[MaxDistance])
           && r.acc[MinDistance] == (if p[MinDistance] <= a[MinDistance] then p[MinDistance] else a[MinDistance])
         else
           && r.acc[NumDistanceData] == a[NumDistanceData]
           && r.acc[MeanDistance] == Sentinel && r.acc[StddevDistance] == Sentinel
           && r.acc[MaxDistance] == Sentinel && r.acc[MinDistance] == Sentinel
           && SameOutside(a, r.acc, DistanceKeys.Keys())
  {
  }

  /** The interval and the accumulator of the stale-centre example: they
      summarise the distances [2, 2] and [0, 0]. */
  const StaleInterval: FeatureMap := map[NumDistanceData := 2.0, MeanDistance := 2.0, StddevDistance := 0.0, MaxDistance := 2.0, MinDistance := 2.0]
  const StaleAccumulator: FeatureMap := map[NumDistanceData := 2.0, MeanDistance := 0.0, StddevDistance := 0.0, MaxDistance := 0.0, MinDistance := 0.0]

  /** The stale centre makes the merged deviation wrong: an accumulator
      holding the distances [0, 0], merged with an interval holding [2, 2],
      ends with a squared deviation of 8/3 where the four distances have
      4/3, and with 'meandistance' still 0 where their mean is 1. */
  lemma MergeDistanceStaleCentre(sqrt: real -> real)
    requires IsSqrt(sqrt)
    ensures Summarises(StaleInterval, DistanceKeys, [2.0, 2.0], sqrt)
    ensures Summarises(StaleAccumulator, DistanceKeys, [0.0, 0.0], sqrt)
    ensures var r := MergeDistance(StaleInterval, StaleAccumulator, sqrt);
            && r.err.None?
            && r.acc[StddevDistance] * r.acc[StddevDistance] == 8.0 / 3.0
            && StdDev([0.0, 0.0] + [2.0, 2.0], sqrt) * StdDev([0.0, 0.0] + [2.0, 2.0], sqrt) == 4.0 / 3.0
            && r.acc[StddevDistance] != StdDev([0.0, 0.0] + [2.0, 2.0], sqrt)
            && r.acc[MeanDistance] == 0.0 && Mean([0.0, 0.0] + [2.0, 2.0]) == 1.0
  {
    StaleCentreInputs(sqrt);
    StaleCentreMerge(sqrt);
    FourDistances(sqrt);
    SquareRootDistinct(sqrt, 8.0 / 3.0, 4.0 / 3.0);
  }

  lemma StaleCentreInputs(sqrt: real -> real)
    requires IsSqrt(sqrt)
    ensures Summarises(StaleInterval, DistanceKeys, [2.0, 2.0], sqrt)
    ensures Summarises(StaleAccumulator, DistanceKeys, [0.0, 0.0], sqrt)
  {
    ConstantPairs(sqrt);
  }

  lemma StaleCentreMerge(sqrt: real -> real)
    ensures var r := MergeDistance(StaleInterval, StaleAccumulator, sqrt);
            && r.err.None? && StddevDistance in r.acc && MeanDistance in r.acc
            && r.acc[StddevDistance] == sqrt(8.0 / 3.0) && r.acc[MeanDistance] == 0.0
  {
    var p, a := StaleInterval, StaleAccumulator;
    MergeDistanceMerges(p, a, sqrt);
    StaleCentreDeviation(sqrt);
    assert GroupAt(p, DistanceKeys) == Group(2.0, 2.0, 0.0) && GroupAt(a, DistanceKeys) == Group(2.0, 0.0, 0.0);
  }

  lemma StaleCentreDeviation(sqrt: real -> real)
    ensures PooledStdDev(Group(2.0, 2.0, 0.0), Group(2.0, 0.0, 0.0), 0.0, sqrt) == sqrt(8.0 / 3.0)
  {
    var g, h := Group(2.0, 2.0, 0.0), Group(2.0, 0.0, 0.0);
    assert Contribution(g, 0.0) + Contribution(h, 0.0) == 8.0;
    assert Weight(g) + Weight(h) - 1.0 == 3.0;
    var q := (Contribution(g, 0.0) + Contribution(h, 0.0)) / (Weight(g) + Weight(h) - 1.0);
    assert q == 8.0 / 3.0;
    assert PooledStdDev(g, h, 0.0, sqrt) == sqrt(q);
  }

  lemma ConstantPairs(sqrt: real -> real)
    requires IsSqrt(sqrt)
    ensures Mean([2.0, 2.0]) == 2.0 && StdDev([2.0, 2.0], sqrt) == 0.0 && Max([2.0, 2.0]) == 2.0 && Min([2.0, 2.0]) == 2.0
    ensures Mean([0.0, 0.0]) == 0.0 && StdDev([0.0, 0.0], sqrt) == 0.0 && Max([0.0, 0.0]) == 0.0 && Min([0.0, 0.0]) == 0.0
  {
    var twos, zeros := [2.0, 2.0], [0.0, 0.0];
    assert twos[..1] == [2.0] && [2.0][..0] == [];
    assert zeros[..1] == [0.0] && [0.0][..0] == [];
    assert Mean(twos) == 2.0 && SumSqDev(twos, 2.0) == 0.0;
    assert Mean(zeros) == 0.0 && SumSqDev(zeros, 0.0) == 0.0;
    SquareRootOfZero(sqrt);
  }

  lemma FourDistances(sqrt: real -> real)
    ensures Mean([0.0, 0.0] + [2.0, 2.0]) == 1.0
    ensures StdDev([0.0, 0.0] + [2.0, 2.0], sqrt) == sqrt(4.0 / 3.0)
  {
    var zeros := [0.0, 0.0];
    var all := zeros + [2.0, 2.0];
    assert all[..3] == [0.0, 0.0, 2.0] && all[..3][..2] == zeros && zeros[..1] == [0.0] && [0.0][..0] == [];
    assert Sum([0.0]) == 0.0 && Sum(zeros) == 0.0 && Sum(all[..3]) == 2.0;
    assert Sum(all) == 4.0;
    assert Mean(all) == 1.0;
    assert SumSqDev([0.0], 1.0) == 1.0;
    assert SumSqDev(zeros, 1.0) == 2.0;
    assert SumSqDev(all[..3], 1.0) == 3.0;
    assert SumSqDev(all, 1.0) == 4.0;
  }

  lemma SquareRootOfZero(sqrt: real -> real)
    requires IsSqrt(sqrt)
    ensures sqrt(0.0) == 0.0
  {
    var z := sqrt(0.0);
    assert z >= 0.0 && z * z == 0.0 * 0.0;
    SquareRootUnique(z, 0.0);
  }

  lemma SquareRootDistinct(sqrt: real -> real, x: real, y: real)
    requires IsSqrt(sqrt)
    requires 0.0 <= x && 0.0 <= y && x != y
    ensures sqrt(x) * sqrt(x) == x && sqrt(y) * sqrt(y) == y && sqrt(x) != sqrt(y)
  {
  }

  // ---------------------------------------------------------------------
  // Path, angle and fixation merges
  // ---------------------------------------------------------------------

  /** The keys under which a dictionary keeps a series that also has a sum
      and a rate per unit of valid time. */
  datatype SeriesKeys = SeriesKeys(count: Feature, mean: Feature, sd: Feature, sum: Feature, rate: Feature)

  const PathDistanceKeys := SeriesKeys(NumFixDistances, MeanPathDistance, StddevPathDistance, SumPathDistance, EyeMovementVelocity)
  const AbsAngleKeys := SeriesKeys(NumAbsAngles, MeanAbsPathAngles, StddevAbsPathAngles, SumAbsPathAngles, AbsPathAnglesRate)
  const RelAngleKeys := SeriesKeys(NumRelAngles, MeanRelPathAngles, StddevRelPathAngles, SumRelPathAngles, RelPathAnglesRate)
  const FixationSeriesKeys := SeriesKeys(NumFixations, MeanFixationDuration, StddevFixationDuration, SumFixationDuration, FixationRate)

  predicate HasSeriesKeys(m: FeatureMap, ks: SeriesKeys)
  {
    ks.count in m && ks.mean in m && ks.sd in m && ks.sum in m && ks.rate in m
  }

  predicate HasPathKeys(m: FeatureMap)
  {
    HasSeriesKeys(m, PathDistanceKeys) && HasSeriesKeys(m, AbsAngleKeys) && HasSeriesKeys(m, RelAngleKeys)
  }

  function SeriesGroup(m: FeatureMap, ks: SeriesKeys): Group
    requires HasSeriesKeys(m, ks)
  {
    Group(m[ks.count], m[ks.mean], m[ks.sd])
  }

  /** The count, mean, deviation and sum of a series after a merge: summed
      count, weighted mean, deviation pooled around that mean and summed sum. */
  predicate SeriesMerged(p: FeatureMap, a: FeatureMap, b: FeatureMap, ks: SeriesKeys, sqrt: real -> real)
    requires HasSeriesKeys(p, ks) && HasSeriesKeys(a, ks)
  {
    && HasSeriesKeys(b, ks)
    && b[ks.count] == p[ks.count] + a[ks.count]
    && b[ks.mean] == WeightedMean(p[ks.count], p[ks.mean], a[ks.count], a[ks.mean])
    && b[ks.sd] == PooledStdDev(SeriesGroup(p, ks), SeriesGroup(a, ks), b[ks.mean], sqrt)
    && b[ks.sum] == p[ks.sum] + a[ks.sum]
  }

  /** Every statistic of the path features is the sentinel. */
  predicate PathStatisticsUnset(b: FeatureMap)
  {
    forall k :: k in PathStatisticKeys ==> k in b && b[k] == Sentinel
  }

  /** Lines 382-394 of the path merge: every statistic becomes the sentinel;
      the counts are not written. */
  function ClearPathStatistics(a: FeatureMap): (b: FeatureMap)
    ensures PathStatisticsUnset(b)
    ensures SameOutside(a, b, PathStatisticKeys)
  {
    a[MeanPathDistance := Sentinel][SumPathDistance := Sentinel][StddevPathDistance := Sentinel]
     [EyeMovementVelocity := Sentinel][SumAbsPathAngles := Sentinel][AbsPathAnglesRate := Sentinel]
     [MeanAbsPathAngles := Sentinel][StddevAbsPathAngles := Sentinel][SumRelPathAngles := Sentinel]
     [RelPathAnglesRate := Sentinel][MeanRelPathAngles := Sentinel][StddevRelPathAngles := Sentinel]
  }

  /** The keys one step of the path merge writes. */
  function StepKeys(ks: SeriesKeys): set<Feature> { {ks.sum, ks.sd, ks.rate} }

  /** The value a series step leaves in the accumulator when nothing fails. */
  function SeriesUpdate(acc: FeatureMap, p: FeatureMap, a: FeatureMap, ks: SeriesKeys, denom: real, sqrt: real -> real): FeatureMap
    requires HasSeriesKeys(p, ks) && HasSeriesKeys(a, ks) && denom != 0.0
  {
    var mean := WeightedMean(p[ks.count], p[ks.mean], a[ks.count], a[ks.mean]);
    acc[ks.sum := p[ks.sum] + a[ks.sum]]
       [ks.sd := PooledStdDev(SeriesGroup(p, ks), SeriesGroup(a, ks), mean, sqrt)]
       [ks.rate := (p[ks.sum] + a[ks.sum]) / denom]
  }

  /** Lines 359-363 of the path merge: the weighted mean of the path
      distances is computed, then their sum, deviation and velocity are
      written in that order. */
  function PathDistanceStep(m: Merged, p: FeatureMap, a: FeatureMap, denom: real, sqrt: real -> real): (r: Merged)
    ensures SameOutside(m.acc, r.acc, StepKeys(PathDistanceKeys))
    ensures m.err.Some? ==> r == m
    ensures r.err.Some? ==> m.err.Some? || r.err.value.MissingKey? || r.err.value == ZeroDivision
    ensures m.err.None? && HasSeriesKeys(p, PathDistanceKeys) && HasSeriesKeys(a, PathDistanceKeys) && denom != 0.0 ==>
              r.err.None? && r.acc == SeriesUpdate(m.acc, p, a, PathDistanceKeys, denom, sqrt)
  {
    var mean := WeightedMeanFeat(p, a, NumFixDistances, MeanPathDistance);
    var m1 := Check(m, mean);
    var sum := SumFeat(p, a, SumPathDistance);
    var m2 := Assign(m1, SumPathDistance, sum);
    var m3 := Assign(m2, StddevPathDistance,
                     var mu :- mean; AggregateStdDevFeat(p, a, NumFixDistances, StddevPathDistance, MeanPathDistance, mu, sqrt));
    Assign(m3, EyeMovementVelocity, var s :- sum; Divide(s, denom))
  }

  /** Lines 364-368 (absolute angles) or 369-374 (relative angles) of the
      path merge: the sum is written, the weighted mean computed, then the
      rate and the deviation written. */
  function AngleStep(m: Merged, p: FeatureMap, a: FeatureMap, ks: SeriesKeys, denom: real, sqrt: real -> real): (r: Merged)
    requires ks.sum != ks.sd && ks.sum != ks.rate && ks.sd != ks.rate
    ensures SameOutside(m.acc, r.acc, StepKeys(ks))
    ensures m.err.Some? ==> r == m
    ensures r.err.Some? ==> m.err.Some? || r.err.value.MissingKey? || r.err.value == ZeroDivision
    ensures m.err.None? && HasSeriesKeys(p, ks) && HasSeriesKeys(a, ks) && denom != 0.0 ==>
              r.err.None? && r.acc == SeriesUpdate(m.acc, p, a, ks, denom, sqrt)
  {
    var sum := SumFeat(p, a, ks.sum);
    var m1 := Assign(m, ks.sum, sum);
    var mean := WeightedMeanFeat(p, a, ks.count, ks.mean);
    var m2 := Check(m1, mean);
    var m3 := Assign(m2, ks.rate, var s :- sum; Divide(s, denom));
    var r := Assign(m3, ks.sd, var mu :- mean; AggregateStdDevFeat(p, a, ks.count, ks.sd, ks.mean, mu, sqrt));
    assert m.err.None? && HasSeriesKeys(p, ks) && HasSeriesKeys(a, ks) && denom != 0.0 ==>
      r.acc == m.acc[ks.sum := sum.value][ks.rate := sum.value / denom][ks.sd := AggregateStdDevFeat(p, a, ks.count, ks.sd, ks.mean, mean.value, sqrt).value];
    r
  }

  /** Lines 376-381 of the path merge: the three weighted means and the
      three summed counts, which can no longer fail, are written last. */
  function WritePathMeansAndCounts(acc: FeatureMap, p: FeatureMap, a: FeatureMap): (b: FeatureMap)
    ensures SameOutside(acc, b, PathKeys)
  {
    acc[MeanPathDistance := ValueOr(WeightedMeanFeat(p, a, NumFixDistances, MeanPathDistance), 0.0)]
       [MeanAbsPathAngles := ValueOr(WeightedMeanFeat(p, a, NumAbsAngles, MeanAbsPathAngles), 0.0)]
       [MeanRelPathAngles := ValueOr(WeightedMeanFeat(p, a, NumRelAngles, MeanRelPathAngles), 0.0)]
       [NumFixDistances := ValueOr(SumFeat(p, a, NumFixDistances), 0.0)]
       [NumAbsAngles := ValueOr(SumFeat(p, a, NumAbsAngles), 0.0)]
       [NumRelAngles := ValueOr(SumFeat(p, a, NumRelAngles), 0.0)]
  }

  /** `merge_path_angle_features`.  The three counts are summed first; the
      rest proceeds only when more than one path distance was counted.  The
      rates divide the freshly written sums by `denom`, the valid length
      `length - length_invalid`.  The three means and the three counts,
      which can no longer fail, are written last. */
  function MergePathAngle(p: FeatureMap, a: FeatureMap, denom: real, sqrt: real -> real): (r: Merged)
    ensures SameOutside(a, r.acc, PathKeys)
    ensures r.err.Some? ==> r.err.value.MissingKey? || r.err.value == ZeroDivision
  {
    var nd := SumFeat(p, a, NumFixDistances);
    var na := SumFeat(p, a, NumAbsAngles);
    var nr := SumFeat(p, a, NumRelAngles);
    var m0 := Check(Check(Check(Merged(a, None), nd), na), nr);
    assert m0.err.None? ==> m0 == Merged(a, None);
    assert StepKeys(PathDistanceKeys) <= PathKeys && StepKeys(AbsAngleKeys) <= PathKeys && StepKeys(RelAngleKeys) <= PathKeys;
    if m0.err.Some? then m0
    else if nd.value > 1.0 then
      var m4 := PathDistanceStep(m0, p, a, denom, sqrt);
      var m8 := AngleStep(m4, p, a, AbsAngleKeys, denom, sqrt);
      var m12 := AngleStep(m8, p, a, RelAngleKeys, denom, sqrt);
      if m12.err.Some? then m12
      else Merged(WritePathMeansAndCounts(m12.acc, p, a), None)
    else
      Merged(ClearPathStatistics(a), None)
  }

  /** A series merged as `SeriesMerged` states whose rate is its new sum
      over the valid length. */
  predicate SeriesMergedWithRate(p: FeatureMap, a: FeatureMap, b: FeatureMap, ks: SeriesKeys, denom: real, sqrt: real -> real)
    requires HasSeriesKeys(p, ks) && HasSeriesKeys(a, ks) && denom != 0.0
  {
    SeriesMerged(p, a, b, ks, sqrt) && b[ks.rate] == b[ks.sum] / denom
  }

  /** With every path key present and a non-zero valid length the path
      merge raises nothing.  When more than one path distance is counted,
      the path distances and both kinds of angles are each merged with
      their rate recomputed from the new sum; otherwise every statistic is
      the sentinel and the counts stay as the accumulator had them. */
  lemma MergePathAngleMerges(p: FeatureMap, a: FeatureMap, denom: real, sqrt: real -> real)
    requires HasPathKeys(p) && HasPathKeys(a) && denom != 0.0
    ensures var r := MergePathAngle(p, a, denom, sqrt);
      && r.err.None?
      && (p[NumFixDistances] + a[NumFixDistances] > 1.0 ==>
            && SeriesMergedWithRate(p, a, r.acc, PathDistanceKeys, denom, sqrt)
            && SeriesMergedWithRate(p, a, r.acc, AbsAngleKeys, denom, sqrt)
            && SeriesMergedWithRate(p, a, r.acc, RelAngleKeys, denom, sqrt))
      && (p[NumFixDistances] + a[NumFixDistances] <= 1.0 ==>
            && PathStatisticsUnset(r.acc)
            && r.acc[NumFixDistances] == a[NumFixDistances]
            && r.acc[NumAbsAngles] == a[NumAbsAngles]
            && r.acc[NumRelAngles] == a[NumRelAngles])
  {
    if p[NumFixDistances] + a[NumFixDistances] > 1.0 {
      PathAngleMergedSeries(p, a, denom, sqrt);
    } else {
      PathAngleClearsStatistics(p, a, denom, sqrt);
    }
  }

  /** With at most one path distance counted the path merge writes the
      sentinel statistics and nothing else. */
  lemma PathAngleClearsStatistics(p: FeatureMap, a: FeatureMap, denom: real, sqrt: real -> real)
    requires HasPathKeys(p) && HasPathKeys(a)
    requires p[NumFixDistances] + a[NumFixDistances] <= 1.0
    ensures MergePathAngle(p, a, denom, sqrt) == Merged(ClearPathStatistics(a), None)
  {
  }

  lemma PathAngleMergedSeries(p: FeatureMap, a: FeatureMap, denom: real, sqrt: real -> real)
    requires HasPathKeys(p) && HasPathKeys(a) && denom != 0.0
    requires p[NumFixDistances] + a[NumFixDistances] > 1.0
    ensures var r := MergePathAngle(p, a, denom, sqrt);
      && r.err.None?
      && SeriesMergedWithRate(p, a, r.acc, PathDistanceKeys, denom, sqrt)
      && SeriesMergedWithRate(p, a, r.acc, AbsAngleKeys, denom, sqrt)
      && SeriesMergedWithRate(p, a, r.acc, RelAngleKeys, denom, sqrt)
  {
    PathAngleStepsSucceed(p, a, denom, sqrt);
    PathMergedStateMerges(p, a, denom, sqrt);
  }

  /** The accumulator after a path merge in which nothing fails. */
  function PathMergedState(p: FeatureMap, a: FeatureMap, denom: real, sqrt: real -> real): FeatureMap
    requires HasPathKeys(p) && HasPathKeys(a) && denom != 0.0
  {
    var u4 := SeriesUpdate(a, p, a, PathDistanceKeys, denom, sqrt);
    var u8 := SeriesUpdate(u4, p, a, AbsAngleKeys, denom, sqrt);
    var u12 := SeriesUpdate(u8, p, a, RelAngleKeys, denom, sqrt);
    WritePathMeansAndCounts(u12, p, a)
  }

  lemma PathAngleStepsSucceed(p: FeatureMap, a: FeatureMap, denom: real, sqrt: real -> real)
    requires HasPathKeys(p) && HasPathKeys(a) && denom != 0.0
    requires p[NumFixDistances] + a[NumFixDistances] > 1.0
    ensures MergePathAngle(p, a, denom, sqrt) == Merged(PathMergedState(p, a, denom, sqrt), None)
  {
    var m4 := PathDistanceStep(Merged(a, None), p, a, denom, sqrt);
    var m8 := AngleStep(m4, p, a, AbsAngleKeys, denom, sqrt);
    var m12 := AngleStep(m8, p, a, RelAngleKeys, denom, sqrt);
    var u4 := SeriesUpdate(a, p, a, PathDistanceKeys, denom, sqrt);
    var u8 := SeriesUpdate(u4, p, a, AbsAngleKeys, denom, sqrt);
    var u12 := SeriesUpdate(u8, p, a, RelAngleKeys, denom, sqrt);
    assert m12 == Merged(u12, None);
  }

  lemma PathMergedStateMerges(p: FeatureMap, a: FeatureMap, denom: real, sqrt: real -> real)
    requires HasPathKeys(p) && HasPathKeys(a) && denom != 0.0
    ensures SeriesMergedWithRate(p, a, PathMergedState(p, a, denom, sqrt), PathDistanceKeys, denom, sqrt)
    ensures SeriesMergedWithRate(p, a, PathMergedState(p, a, denom, sqrt), AbsAngleKeys, denom, sqrt)
    ensures SeriesMergedWithRate(p, a, PathMergedState(p, a, denom, sqrt), RelAngleKeys, denom, sqrt)
  {
    PathMergedDistances(p, a, denom, sqrt);
    PathMergedAngles(p, a, denom, sqrt);
  }

  lemma PathMergedDistances(p: FeatureMap, a: FeatureMap, denom: real, sqrt: real -> real)
    requires HasPathKeys(p) && HasPathKeys(a) && denom != 0.0
    ensures SeriesMergedWithRate(p, a, PathMergedState(p, a, denom, sqrt), PathDistanceKeys, denom, sqrt)
  {
  }

  lemma PathMergedAngles(p: FeatureMap, a: FeatureMap, denom: real, sqrt: real -> real)
    requires HasPathKeys(p) && HasPathKeys(a) && denom != 0.0
    ensures SeriesMergedWithRate(p, a, PathMergedState(p, a, denom, sqrt), AbsAngleKeys, denom, sqrt)
    ensures SeriesMergedWithRate(p, a, PathMergedState(p, a, denom, sqrt), RelAngleKeys, denom, sqrt)
  {
  }

  /** The valid-length division is unguarded: with a zero valid length the
      merge raises after it has already written the summed path distance
      and its pooled deviation. */
  lemma MergePathAngleZeroLength(p: FeatureMap, a: FeatureMap, sqrt: real -> real)
    requires HasPathKeys(p) && HasPathKeys(a)
    requires p[NumFixDistances] + a[NumFixDistances] > 1.0
    ensures var r := MergePathAngle(p, a, 0.0, sqrt);
      && r.err == Some(ZeroDivision)
      && r.acc[SumPathDistance] == p[SumPathDistance] + a[SumPathDistance]
      && r.acc[StddevPathDistance] == PooledStdDev(SeriesGroup(p, PathDistanceKeys), SeriesGroup(a, PathDistanceKeys),
                                                 WeightedMean(p[NumFixDistances], p[MeanPathDistance], a[NumFixDistances], a[MeanPathDistance]), sqrt)
      && r.acc[MeanPathDistance] == a[MeanPathDistance]
  {
    var m4 := PathDistanceStep(Merged(a, None), p, a, 0.0, sqrt);
    PathDistanceStepOfZeroLength(p, a, sqrt);
    assert MergePathAngle(p, a, 0.0, sqrt) == m4;
  }

  /** The path distance step over a zero valid length writes the summed
      distance and its pooled deviation, then raises on the velocity. */
  lemma PathDistanceStepOfZeroLength(p: FeatureMap, a: FeatureMap, sqrt: real -> real)
    requires HasSeriesKeys(p, PathDistanceKeys) && HasSeriesKeys(a, PathDistanceKeys)
    ensures var r := PathDistanceStep(Merged(a, None), p, a, 0.0, sqrt);
      && r.err == Some(ZeroDivision)
      && r.acc == a[SumPathDistance := p[SumPathDistance] + a[SumPathDistance]]
                   [StddevPathDistance := PooledStdDev(SeriesGroup(p, PathDistanceKeys), SeriesGroup(a, PathDistanceKeys),
                                                       WeightedMean(p[NumFixDistances], p[MeanPathDistance], a[NumFixDistances], a[MeanPathDistance]), sqrt)]
  {
  }

  /** `merge_fixation_features`.  The fixation rate is divided out before
      the count is tested, so a zero valid length raises even when no
      fixation was counted; the count is written in both branches. */
  function MergeFixation(p: FeatureMap, a: FeatureMap, denom: real, sqrt: real -> real): (r: Merged)
    ensures SameOutside(a, r.acc, FixationKeys)
    ensures r.err.Some? ==> r.err.value.MissingKey? || r.err.value == ZeroDivision
  {
    var n := SumFeat(p, a, NumFixations);
    var rate := var x :- n; Divide(x, denom);
    var m1 := Assign(Check(Merged(a, None), n), FixationRate, rate);
    if m1.err.Some? then m1
    else if n.value > 0.0 then
      var mean := WeightedMeanFeat(p, a, NumFixations, MeanFixationDuration);
      var m2 := Check(m1, mean);
      var m3 := Assign(m2, StddevFixationDuration,
                       var mu :- mean; AggregateStdDevFeat(p, a, NumFixations, StddevFixationDuration, MeanFixationDuration, mu, sqrt));
      var m4 := Assign(m3, SumFixationDuration, SumFeat(p, a, SumFixationDuration));
      var m5 := Assign(m4, FixationRate, rate);
      var m6 := Assign(m5, MeanFixationDuration, mean);
      Assign(m6, NumFixations, n)
    else
      Merged(m1.acc[MeanFixationDuration := Sentinel][StddevFixationDuration := Sentinel][SumFixationDuration := Sentinel]
                   [FixationRate := Sentinel][NumFixations := n.value], None)
  }

  /** With every fixation key present and a non-zero valid length the
      fixation merge raises nothing and writes the summed count; for a
      positive count the fixation durations are merged and the rate is the
      count over the valid length, otherwise their statistics and the rate
      are the sentinel. */
  lemma MergeFixationMerges(p: FeatureMap, a: FeatureMap, denom: real, sqrt: real -> real)
    requires HasSeriesKeys(p, FixationSeriesKeys) && HasSeriesKeys(a, FixationSeriesKeys) && denom != 0.0
    ensures var r := MergeFixation(p, a, denom, sqrt);
      var n := p[NumFixations] + a[NumFixations];
      && r.err.None?
      && HasSeriesKeys(r.acc, FixationSeriesKeys)
      && r.acc[NumFixations] == n
      && (n > 0.0 ==> SeriesMerged(p, a, r.acc, FixationSeriesKeys, sqrt) && r.acc[FixationRate] == n / denom)
      && (n <= 0.0 ==>
            && r.acc[MeanFixationDuration] == Sentinel && r.acc[StddevFixationDuration] == Sentinel
            && r.acc[SumFixationDuration] == Sentinel && r.acc[FixationRate] == Sentinel)
  {
  }

  /** With a zero valid length the fixation merge raises before writing
      anything. */
  lemma MergeFixationZeroLength(p: FeatureMap, a: FeatureMap, sqrt: real -> real)
    requires NumFixations in p && NumFixations in a
    ensures MergeFixation(p, a, 0.0, sqrt) == Merged(a, Some(ZeroDivision))
  {
  }

  /** The sums are added without skipping the sentinel: merging fixations
      into a freshly initialised accumulator leaves their summed duration
      one less than the interval's. */
  lemma MergeFixationIntoFreshSum(p: FeatureMap, a: FeatureMap, denom: real, sqrt: real -> real)
    requires IsFreshAccumulator(a)
    requires HasSeriesKeys(p, FixationSeriesKeys) && p[NumFixations] > 0.0 && denom != 0.0
    ensures MergeFixation(p, a, denom, sqrt).err.None?
    ensures MergeFixation(p, a, denom, sqrt).acc[SumFixationDuration] == p[SumFixationDuration] - 1.0
  {
    assert !IsIntervalOnly(SumFixationDuration) && !IsCount(SumFixationDuration);
    assert !IsIntervalOnly(NumFixations) && IsCount(NumFixations);
    assert HasSeriesKeys(a, FixationSeriesKeys);
    MergeFixationMerges(p, a, denom, sqrt);
  }

  /** `m` holds, under `ks`, the count, mean, deviation and sum of `s`
      (or the sentinel for each statistic when `s` is empty). */
  predicate SeriesSummarises(m: FeatureMap, ks: SeriesKeys, s: seq<real>, sqrt: real -> real)
  {
    && HasSeriesKeys(m, ks)
    && m[ks.count] == |s| as real
    && if |s| > 0 then
         m[ks.mean] == Mean(s) && m[ks.sd] == StdDev(s, sqrt) && m[ks.sum] == Sum(s)
       else
         m[ks.mean] == Sentinel && m[ks.sd] == Sentinel && m[ks.sum] == Sentinel
  }

  /** Merge exactness for series with a sum: merging the summaries of two
      non-empty series gives the summary of the two together. */
  lemma MergeSeriesExact(p: FeatureMap, a: FeatureMap, b: FeatureMap, ks: SeriesKeys,
                         s: seq<real>, t: seq<real>, sqrt: real -> real)
    requires IsSqrt(sqrt)
    requires SeriesSummarises(p, ks, s, sqrt) && SeriesSummarises(a, ks, t, sqrt)
    requires |s| > 0 && |t| > 0
    requires SeriesMerged(p, a, b, ks, sqrt)
    ensures SeriesSummarises(b, ks, s + t, sqrt)
  {
    MeanConcat(s, t);
    PooledStdDevExact(s, t, sqrt);
    SumConcat(s, t);
    assert SeriesGroup(p, ks) == GroupOf(s, sqrt) && SeriesGroup(a, ks) == GroupOf(t, sqrt);
  }

  // ---------------------------------------------------------------------
  // merge_features
  // ---------------------------------------------------------------------

  /** Every key a merge can write. */
  const MergeKeys := PupilKeys + DistanceMergeKeys + PathKeys + FixationKeys

  /** `merge_features`: the enabled groups in the order pupil, distance,
      path and angles, fixations; an exception in one group ends the merge. */
  function MergeFeatures(cfg: Params, p: FeatureMap, a: FeatureMap, denom: real, sqrt: real -> real): (r: Merged)
    ensures SameOutside(a, r.acc, MergeKeys)
    ensures !cfg.usePupil && !cfg.useDistance && !cfg.useFixationPath ==> r == Merged(a, None)
  {
    var m1 := if cfg.usePupil then MergePupil(p, a, sqrt) else Merged(a, None);
    if m1.err.Some? then m1
    else
      var m2 := if cfg.useDistance then MergeDistance(p, m1.acc, sqrt) else m1;
      if m2.err.Some? || !cfg.useFixationPath then m2
      else
        var m3 := MergePathAngle(p, m2.acc, denom, sqrt);
        if m3.err.Some? then m3 else MergeFixation(p, m3.acc, denom, sqrt)
  }
}
