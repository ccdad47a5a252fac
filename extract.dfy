/** What one cycle's extractors write into the interval dictionary, as
    functions of the valid values they collected: `calc_pupil_features`
    (lines 164-199), `calc_distance_features` (lines 226-242) and the
    fixation and path parts of `calc_fix_ang_path_features` (lines 263-313). */
module Extract {
  import opened Features
  import opened Stats
  import opened Merge
  import opened Path

  // ---------------------------------------------------------------------
  // Validity tests of the raw series
  // ---------------------------------------------------------------------

  /** A pupil size is valid when positive (line 153). */
  predicate IsPupilSize(x: real) { x > 0.0 }

  /** A pupil velocity is valid unless it is the tracker's -1 (line 159). */
  predicate IsPupilVelocity(x: real) { x != -1.0 }

  /** A head distance is valid when positive (line 221). */
  predicate IsHeadDistance(x: real) { x > 0.0 }

  // ---------------------------------------------------------------------
  // Pupil features
  // ---------------------------------------------------------------------

  const PupilIntervalKeys := PupilKeys + {StartPupilSize, EndPupilSize}

  /** Every statistic of `ks` is the sentinel. */
  predicate StatsUnset(m: FeatureMap, ks: StatKeys)
  {
    HasStatKeys(m, ks) && m[ks.mean] == Sentinel && m[ks.sd] == Sentinel && m[ks.max] == Sentinel && m[ks.min] == Sentinel
  }

  /** The twelve pupil features of an interval with valid sizes `sizes` and
      valid velocities `vels`.  The velocity statistics are only computed
      inside the branch taken when there are valid sizes. */
  function PupilFeatureMap(sizes: seq<real>, vels: seq<real>, sqrt: real -> real): FeatureMap
  {
    var sized := |sizes| > 0;
    var moving := sized && |vels| > 0;
    map[
      MeanPupilSize := if sized then Mean(sizes) else Sentinel,
      StddevPupilSize := if sized then StdDev(sizes, sqrt) else Sentinel,
      MaxPupilSize := if sized then Max(sizes) else Sentinel,
      MinPupilSize := if sized then Min(sizes) else Sentinel,
      StartPupilSize := if sized then sizes[0] else Sentinel,
      EndPupilSize := if sized then sizes[|sizes| - 1] else Sentinel,
      MeanPupilVelocity := if moving then Mean(vels) else Sentinel,
      StddevPupilVelocity := if moving then StdDev(vels, sqrt) else Sentinel,
      MaxPupilVelocity := if moving then Max(vels) else Sentinel,
      MinPupilVelocity := if moving then Min(vels) else Sentinel,
      NumPupilSizes := |sizes| as real,
      NumPupilVelocity := |vels| as real
    ]
  }
  /** The pupil features summarise the valid sizes and, when there are
      valid sizes, the valid velocities; without valid sizes the velocity
      statistics stay unset although their count is still written. */
  lemma PupilFeatureMapValues(sizes: seq<real>, vels: seq<real>, sqrt: real -> real)
    ensures PupilFeatureMap(sizes, vels, sqrt).Keys == PupilIntervalKeys
    ensures Summarises(PupilFeatureMap(sizes, vels, sqrt), PupilSizeKeys, sizes, sqrt)
    ensures PupilFeatureMap(sizes, vels, sqrt)[StartPupilSize] == (if |sizes| > 0 then sizes[0] else Sentinel)
    ensures PupilFeatureMap(sizes, vels, sqrt)[EndPupilSize] == (if |sizes| > 0 then sizes[|sizes| - 1] else Sentinel)
    ensures |sizes| > 0 ==> Summarises(PupilFeatureMap(sizes, vels, sqrt), PupilVelocityKeys, vels, sqrt)
    ensures |sizes| == 0 ==>
              PupilFeatureMap(sizes, vels, sqrt)[NumPupilVelocity] == |vels| as real
              && StatsUnset(PupilFeatureMap(sizes, vels, sqrt), PupilVelocityKeys)
  {
  }


  /** The extreme pupil sizes bound every valid size, and the first and
      last valid sizes lie between them. */
  lemma PupilSizeBounds(sizes: seq<real>, vels: seq<real>, sqrt: real -> real)
    requires |sizes| > 0
    ensures forall i :: 0 <= i < |sizes| ==>
              PupilFeatureMap(sizes, vels, sqrt)[MinPupilSize] <= sizes[i] <= PupilFeatureMap(sizes, vels, sqrt)[MaxPupilSize]
    ensures PupilFeatureMap(sizes, vels, sqrt)[MinPupilSize] <= PupilFeatureMap(sizes, vels, sqrt)[StartPupilSize] <= PupilFeatureMap(sizes, vels, sqrt)[MaxPupilSize]
    ensures PupilFeatureMap(sizes, vels, sqrt)[MinPupilSize] <= PupilFeatureMap(sizes, vels, sqrt)[EndPupilSize] <= PupilFeatureMap(sizes, vels, sqrt)[MaxPupilSize]
  {
    var m := PupilFeatureMap(sizes, vels, sqrt);
    PupilFeatureMapValues(sizes, vels, sqrt);
    assert m[MinPupilSize] == Min(sizes) && m[MaxPupilSize] == Max(sizes);
    assert m[StartPupilSize] == sizes[0] && m[EndPupilSize] == sizes[|sizes| - 1];
  }

  // ---------------------------------------------------------------------
  // Distance features
  // ---------------------------------------------------------------------

  const DistanceIntervalKeys := DistanceKeys.Keys() + {StartDistance, EndDistance}

  /** The seven distance features of an interval with valid head distances
      `ds`. */
  function DistanceFeatureMap(ds: seq<real>, sqrt: real -> real): FeatureMap
  {
    if |ds| > 0 then
      map[
        MeanDistance := Mean(ds), StddevDistance := StdDev(ds, sqrt), MaxDistance := Max(ds), MinDistance := Min(ds),
        StartDistance := ds[0], EndDistance := ds[|ds| - 1], NumDistanceData := |ds| as real
      ]
    else
      map[
        MeanDistance := Sentinel, StddevDistance := Sentinel, MaxDistance := Sentinel, MinDistance := Sentinel,
        StartDistance := Sentinel, EndDistance := Sentinel, NumDistanceData := 0.0
      ]
  }
  /** The distance features summarise the valid head distances. */
  lemma DistanceFeatureMapValues(ds: seq<real>, sqrt: real -> real)
    ensures DistanceFeatureMap(ds, sqrt).Keys == DistanceIntervalKeys
    ensures Summarises(DistanceFeatureMap(ds, sqrt), DistanceKeys, ds, sqrt)
    ensures DistanceFeatureMap(ds, sqrt)[StartDistance] == (if |ds| > 0 then ds[0] else Sentinel)
    ensures DistanceFeatureMap(ds, sqrt)[EndDistance] == (if |ds| > 0 then ds[|ds| - 1] else Sentinel)
  {
  }


  lemma DistanceBounds(ds: seq<real>, sqrt: real -> real)
    requires |ds| > 0
    ensures forall i :: 0 <= i < |ds| ==>
              DistanceFeatureMap(ds, sqrt)[MinDistance] <= ds[i] <= DistanceFeatureMap(ds, sqrt)[MaxDistance]
    ensures DistanceFeatureMap(ds, sqrt)[MinDistance] <= DistanceFeatureMap(ds, sqrt)[StartDistance] <= DistanceFeatureMap(ds, sqrt)[MaxDistance]
    ensures DistanceFeatureMap(ds, sqrt)[MinDistance] <= DistanceFeatureMap(ds, sqrt)[EndDistance] <= DistanceFeatureMap(ds, sqrt)[MaxDistance]
  {
    var m := DistanceFeatureMap(ds, sqrt);
    DistanceFeatureMapValues(ds, sqrt);
    assert m[MinDistance] == Min(ds) && m[MaxDistance] == Max(ds);
  }

  // ---------------------------------------------------------------------
  // Fixation features
  // ---------------------------------------------------------------------

  /** Field [2] of every fixation. */
  function Durations(fixes: seq<Fixation>): (r: seq<real>)
    ensures |r| == |fixes|
    ensures forall i :: 0 <= i < |fixes| ==> r[i] == fixes[i].duration
  {
    seq(|fixes|, i requires 0 <= i < |fixes| => fixes[i].duration)
  }

  /** Lines 264-266: mean, deviation and sum of the durations. */
  function DurationFeatureMap(durations: seq<real>, sqrt: real -> real): FeatureMap
  {
    map[MeanFixationDuration := Mean(durations), StddevFixationDuration := StdDev(durations, sqrt), SumFixationDuration := Sum(durations)]
  }

  /** The duration features are the mean, deviation and sum of the
      durations: the mean times their number is their sum. */
  lemma DurationFeatureMapValues(durations: seq<real>, sqrt: real -> real)
    ensures DurationFeatureMap(durations, sqrt).Keys == {MeanFixationDuration, StddevFixationDuration, SumFixationDuration}
    ensures DurationFeatureMap(durations, sqrt)[SumFixationDuration] == Sum(durations)
    ensures DurationFeatureMap(durations, sqrt)[MeanFixationDuration] * (|durations| as real) == Sum(durations)
    ensures DurationFeatureMap(durations, sqrt)[StddevFixationDuration] == StdDev(durations, sqrt)
  {
    MeanTimesCount(durations);
  }

  /** Lines 272-279: no new fixation. */
  function NoFixationFeatureMap(): FeatureMap
  {
    map[MeanFixationDuration := Sentinel, StddevFixationDuration := Sentinel, SumFixationDuration := Sentinel,
        FixationRate := Sentinel, NumFixations := 0.0]
  }

  /** Without a new fixation the count is 0 and every fixation statistic
      the sentinel. */
  lemma NoFixationFeatureMapValues()
    ensures NoFixationFeatureMap().Keys == FixationKeys
    ensures NoFixationFeatureMap()[NumFixations] == 0.0
    ensures forall k :: k in NoFixationFeatureMap() && k != NumFixations ==> NoFixationFeatureMap()[k] == Sentinel
  {
  }

  // ---------------------------------------------------------------------
  // Path features
  // ---------------------------------------------------------------------

  /** The count, mean, deviation and sum of `s` under `ks`, with no
      sentinel case (the relative angles of two fixations are an empty
      list whose statistics are still computed). */
  predicate SeriesValues(m: FeatureMap, ks: SeriesKeys, s: seq<real>, sqrt: real -> real)
  {
    && HasSeriesKeys(m, ks)
    && m[ks.count] == |s| as real
    && m[ks.mean] == Mean(s) && m[ks.sd] == StdDev(s, sqrt) && m[ks.sum] == Sum(s)
  }

  /** The five keys of one series are pairwise different. */
  predicate SeriesKeysDistinct(ks: SeriesKeys)
  {
    && ks.count != ks.mean && ks.count != ks.sd && ks.count != ks.sum && ks.count != ks.rate
    && ks.mean != ks.sd && ks.mean != ks.sum && ks.mean != ks.rate
    && ks.sd != ks.sum && ks.sd != ks.rate && ks.sum != ks.rate
  }

  function SeriesKeySet(ks: SeriesKeys): set<Feature> { {ks.count, ks.mean, ks.sd, ks.sum, ks.rate} }

  /** `m` with the count, mean, deviation, sum and rate of one series of
      the path features written, the rate being the sum over `denom`. */
  function AddSeries(m: FeatureMap, ks: SeriesKeys, s: seq<real>, denom: real, sqrt: real -> real): (r: FeatureMap)
    requires denom != 0.0
    ensures r.Keys == m.Keys + SeriesKeySet(ks)
    ensures SameOutside(m, r, SeriesKeySet(ks))
  {
    m[ks.count := |s| as real][ks.mean := Mean(s)][ks.sd := StdDev(s, sqrt)][ks.sum := Sum(s)][ks.rate := Per(Sum(s), denom)]
  }

  lemma AddSeriesValues(m: FeatureMap, ks: SeriesKeys, s: seq<real>, denom: real, sqrt: real -> real)
    requires denom != 0.0 && SeriesKeysDistinct(ks)
    ensures SeriesValues(AddSeries(m, ks, s, denom, sqrt), ks, s, sqrt)
    ensures AddSeries(m, ks, s, denom, sqrt)[ks.rate] == Per(Sum(s), denom)
  {
  }

  /** `b` agrees with `a` on the keys of `ks`, so the values of that series
      carry over. */
  lemma SeriesValuesTransfer(a: FeatureMap, b: FeatureMap, ks: SeriesKeys, s: seq<real>, sqrt: real -> real, keys: set<Feature>)
    requires SeriesValues(a, ks, s, sqrt) && SameOutside(a, b, keys)
    requires ks.count !in keys && ks.mean !in keys && ks.sd !in keys && ks.sum !in keys && ks.rate !in keys
    ensures SeriesValues(b, ks, s, sqrt)
  {
  }

  /** Lines 285-299: the path statistics of a path with at least one
      saccade, with each rate the sum over `denom`. */
  function PathFeatureMap(ds: seq<real>, absAngles: seq<real>, relAngles: seq<real>, denom: real, sqrt: real -> real): (m: FeatureMap)
    requires |ds| > 0 && denom != 0.0
  {
    var d := AddSeries(map[], PathDistanceKeys, ds, denom, sqrt);
    var a := AddSeries(d, AbsAngleKeys, absAngles, denom, sqrt);
    AddSeries(a, RelAngleKeys, relAngles, denom, sqrt)
  }

  /** The path features hold exactly the path keys. */
  lemma PathFeatureMapKeys(ds: seq<real>, absAngles: seq<real>, relAngles: seq<real>, denom: real, sqrt: real -> real)
    requires |ds| > 0 && denom != 0.0
    ensures PathFeatureMap(ds, absAngles, relAngles, denom, sqrt).Keys == PathKeys
  {
    assert SeriesKeySet(PathDistanceKeys) + SeriesKeySet(AbsAngleKeys) + SeriesKeySet(RelAngleKeys) == PathKeys;
  }

  /** The path features hold the count, mean, deviation and sum of the
      saccade lengths, of the absolute angles and of the relative angles,
      and each rate is the series' sum per unit of valid time. */
  lemma PathFeatureMapValues(ds: seq<real>, absAngles: seq<real>, relAngles: seq<real>, denom: real, sqrt: real -> real)
    requires |ds| > 0 && denom != 0.0
    ensures SeriesValues(PathFeatureMap(ds, absAngles, relAngles, denom, sqrt), PathDistanceKeys, ds, sqrt)
    ensures SeriesValues(PathFeatureMap(ds, absAngles, relAngles, denom, sqrt), AbsAngleKeys, absAngles, sqrt)
    ensures SeriesValues(PathFeatureMap(ds, absAngles, relAngles, denom, sqrt), RelAngleKeys, relAngles, sqrt)
    ensures PathFeatureMap(ds, absAngles, relAngles, denom, sqrt)[EyeMovementVelocity] == Per(Sum(ds), denom)
    ensures PathFeatureMap(ds, absAngles, relAngles, denom, sqrt)[AbsPathAnglesRate] == Per(Sum(absAngles), denom)
    ensures PathFeatureMap(ds, absAngles, relAngles, denom, sqrt)[RelPathAnglesRate] == Per(Sum(relAngles), denom)
  {
    var d := AddSeries(map[], PathDistanceKeys, ds, denom, sqrt);
    var a := AddSeries(d, AbsAngleKeys, absAngles, denom, sqrt);
    var r := AddSeries(a, RelAngleKeys, relAngles, denom, sqrt);
    AddSeriesValues(map[], PathDistanceKeys, ds, denom, sqrt);
    AddSeriesValues(d, AbsAngleKeys, absAngles, denom, sqrt);
    AddSeriesValues(a, RelAngleKeys, relAngles, denom, sqrt);
    SeriesValuesTransfer(d, a, PathDistanceKeys, ds, sqrt, SeriesKeySet(AbsAngleKeys));
    SeriesValuesTransfer(a, r, PathDistanceKeys, ds, sqrt, SeriesKeySet(RelAngleKeys));
    SeriesValuesTransfer(a, r, AbsAngleKeys, absAngles, sqrt, SeriesKeySet(RelAngleKeys));
    assert EyeMovementVelocity !in SeriesKeySet(AbsAngleKeys) + SeriesKeySet(RelAngleKeys);
    assert AbsPathAnglesRate !in SeriesKeySet(RelAngleKeys);
  }

  /** Lines 300-313: a path without a saccade.  Only the distance count is
      written; the two angle counts are not. */
  function NoPathFeatureMap(): FeatureMap
  {
    map[
      MeanPathDistance := Sentinel, SumPathDistance := Sentinel, StddevPathDistance := Sentinel,
      EyeMovementVelocity := Sentinel, SumAbsPathAngles := Sentinel, AbsPathAnglesRate := Sentinel,
      MeanAbsPathAngles := Sentinel, StddevAbsPathAngles := Sentinel, SumRelPathAngles := Sentinel,
      RelPathAnglesRate := Sentinel, MeanRelPathAngles := Sentinel, StddevRelPathAngles := Sentinel,
      NumFixDistances := 0.0
    ]
  }

  /** Without a saccade every path statistic is the sentinel and the
      distance count is 0. */
  lemma NoPathFeatureMapValues()
    ensures NoPathFeatureMap().Keys == PathStatisticKeys + {NumFixDistances}
    ensures PathStatisticsUnset(NoPathFeatureMap()) && NoPathFeatureMap()[NumFixDistances] == 0.0
  {
  }

  // ---------------------------------------------------------------------
  // The whole of calc_fix_ang_path_features
  // ---------------------------------------------------------------------

  /** The interval dictionary `calc_fix_ang_path_features` leaves behind
      when it starts from `interval` with the new fixations `fixes` and the
      valid length `denom`, and the exception it raises, if any:
      - no new fixation: the fixation sentinels are written, then reading
        the unbound `distances` raises;
      - a zero valid length: the duration statistics are written, then the
        fixation rate divides by zero;
      - a turn whose norm is zero: the rate is written, then the relative
        angles raise;
      - otherwise the fixation count and the path features are written. */
  function FixAngPathOutcome(interval: FeatureMap, fixes: seq<Fixation>, denom: real, ops: MathOps): (FeatureMap, Option<Error>)
  {
    var n := |fixes|;
    if n == 0 then
      (interval + NoFixationFeatureMap(), Some(DistancesUnbound))
    else
      var withDurations := interval + DurationFeatureMap(Durations(fixes), ops.sqrt);
      if denom == 0.0 then (withDurations, Some(ZeroDivision))
      else
        var withRate := withDurations[FixationRate := Per(n as real, denom)];
        var rel := PathRelAngles(fixes, ops);
        if rel.Err? then (withRate, Some(rel.error))
        else (Counted(interval, fixes, denom, ops.sqrt) + PathPart(fixes, rel.value, denom, ops), None)
  }

  /** The four ways out of `calc_fix_ang_path_features`, one lemma each. */
  lemma OutcomeWithoutFixations(interval: FeatureMap, fixes: seq<Fixation>, denom: real, ops: MathOps)
    requires |fixes| == 0
    ensures FixAngPathOutcome(interval, fixes, denom, ops) == (interval + NoFixationFeatureMap(), Some(DistancesUnbound))
  {
  }

  lemma OutcomeOfZeroLength(interval: FeatureMap, fixes: seq<Fixation>, ops: MathOps)
    requires |fixes| > 0
    ensures FixAngPathOutcome(interval, fixes, 0.0, ops) == (interval + DurationFeatureMap(Durations(fixes), ops.sqrt), Some(ZeroDivision))
  {
  }

  lemma OutcomeOfFailedTurn(interval: FeatureMap, fixes: seq<Fixation>, denom: real, ops: MathOps)
    requires |fixes| > 0 && denom != 0.0 && PathRelAngles(fixes, ops).Err?
    ensures FixAngPathOutcome(interval, fixes, denom, ops) ==
              ((interval + DurationFeatureMap(Durations(fixes), ops.sqrt))[FixationRate := Per(|fixes| as real, denom)],
               Some(PathRelAngles(fixes, ops).error))
  {
  }

  lemma OutcomeOfSuccess(interval: FeatureMap, fixes: seq<Fixation>, denom: real, ops: MathOps)
    requires |fixes| > 0 && denom != 0.0 && PathRelAngles(fixes, ops).Ok?
    ensures FixAngPathOutcome(interval, fixes, denom, ops) ==
              ((interval + DurationFeatureMap(Durations(fixes), ops.sqrt))[FixationRate := Per(|fixes| as real, denom)][NumFixations := |fixes| as real]
                 + PathPart(fixes, PathRelAngles(fixes, ops).value, denom, ops), None)
  {
  }

  /** Lines 264-268 and 279: the interval with the fixation features of
      the new fixations written. */
  function Counted(interval: FeatureMap, fixes: seq<Fixation>, denom: real, sqrt: real -> real): FeatureMap
    requires |fixes| > 0 && denom != 0.0
  {
    var withDurations := interval + DurationFeatureMap(Durations(fixes), sqrt);
    withDurations[FixationRate := Per(|fixes| as real, denom)][NumFixations := |fixes| as real]
  }

  /** The fixation features of the new fixations: their number, their
      summed duration and their number per unit of valid time. */
  lemma CountedValues(interval: FeatureMap, fixes: seq<Fixation>, denom: real, sqrt: real -> real)
    requires |fixes| > 0 && denom != 0.0
    ensures Counted(interval, fixes, denom, sqrt).Keys == interval.Keys + FixationKeys
    ensures Counted(interval, fixes, denom, sqrt)[NumFixations] == |fixes| as real
    ensures Counted(interval, fixes, denom, sqrt)[SumFixationDuration] == Sum(Durations(fixes))
    ensures Counted(interval, fixes, denom, sqrt)[FixationRate] == Per(|fixes| as real, denom)
  {
    DurationFeatureMapValues(Durations(fixes), sqrt);
  }

  /** Lines 281-313: the path features of the new fixations, given their
      relative angles. */
  function PathPart(fixes: seq<Fixation>, relAngles: seq<real>, denom: real, ops: MathOps): FeatureMap
    requires denom != 0.0
  {
    var ds := PathDistances(fixes, ops.sqrt);
    if |ds| > 0 then PathFeatureMap(ds, PathAbsAngles(fixes, ops.direction), relAngles, denom, ops.sqrt)
    else NoPathFeatureMap()
  }

  /** The path part writes path keys only, the distance count among them. */
  lemma PathPartKeys(fixes: seq<Fixation>, relAngles: seq<real>, denom: real, ops: MathOps)
    requires denom != 0.0
    ensures PathPart(fixes, relAngles, denom, ops).Keys <= PathKeys
    ensures NumFixDistances in PathPart(fixes, relAngles, denom, ops)
  {
    var ds := PathDistances(fixes, ops.sqrt);
    if |ds| > 0 {
      PathFeatureMapKeys(ds, PathAbsAngles(fixes, ops.direction), relAngles, denom, ops.sqrt);
    } else {
      NoPathFeatureMapValues();
    }
  }

  /** With new fixations and no error, the fixation count is the number of
      new fixations, the summed duration is the sum of their durations, and
      the fixation rate is their number per unit of valid time. */
  lemma FixationCounts(interval: FeatureMap, fixes: seq<Fixation>, denom: real, ops: MathOps)
    requires FixAngPathOutcome(interval, fixes, denom, ops).1.None?
    ensures |fixes| > 0 && denom != 0.0
    ensures FixAngPathOutcome(interval, fixes, denom, ops).0[NumFixations] == |fixes| as real
    ensures FixAngPathOutcome(interval, fixes, denom, ops).0[SumFixationDuration] == Sum(Durations(fixes))
    ensures FixAngPathOutcome(interval, fixes, denom, ops).0[FixationRate] == Per(|fixes| as real, denom)
  {
    var rel := PathRelAngles(fixes, ops);
    var counted := Counted(interval, fixes, denom, ops.sqrt);
    var path := PathPart(fixes, rel.value, denom, ops);
    assert FixAngPathOutcome(interval, fixes, denom, ops).0 == counted + path;
    CountedValues(interval, fixes, denom, ops.sqrt);
    PathPartKeys(fixes, rel.value, denom, ops);
    FixationKeysOutsidePath();
  }

  lemma FixationKeysOutsidePath()
    ensures NumFixations !in PathKeys && SumFixationDuration !in PathKeys && FixationRate !in PathKeys
  {
  }

  /** With no new fixation the cycle always raises, after writing the
      fixation sentinels and a zero count. */
  lemma NoFixationRaises(interval: FeatureMap, denom: real, ops: MathOps)
    ensures FixAngPathOutcome(interval, [], denom, ops).1 == Some(DistancesUnbound)
    ensures FixAngPathOutcome(interval, [], denom, ops).0[NumFixations] == 0.0
    ensures FixAngPathOutcome(interval, [], denom, ops).0[MeanFixationDuration] == Sentinel
    ensures FixAngPathOutcome(interval, [], denom, ops).0[SumFixationDuration] == Sentinel
    ensures FixAngPathOutcome(interval, [], denom, ops).0[StddevFixationDuration] == Sentinel
    ensures FixAngPathOutcome(interval, [], denom, ops).0[FixationRate] == Sentinel
  {
    NoFixationFeatureMapValues();
    assert FixationKeys == {NumFixations, FixationRate, MeanFixationDuration, StddevFixationDuration, SumFixationDuration};
  }

  /** With exactly one new fixation the path counts of the angles are left
      unwritten: an interval dictionary that did not hold them before (the
      dictionary starts empty each cycle) still lacks them. */
  lemma OneFixationLeavesAngleCountsUnset(interval: FeatureMap, f: Fixation, denom: real, ops: MathOps)
    requires denom != 0.0
    requires NumAbsAngles !in interval && NumRelAngles !in interval
    ensures FixAngPathOutcome(interval, [f], denom, ops).1.None?
    ensures NumFixDistances in FixAngPathOutcome(interval, [f], denom, ops).0
    ensures NumAbsAngles !in FixAngPathOutcome(interval, [f], denom, ops).0
    ensures NumRelAngles !in FixAngPathOutcome(interval, [f], denom, ops).0
  {
    assert PathRelAngles([f], ops) == Ok([]);
    assert |PathDistances([f], ops.sqrt)| == 0;
    var counted := Counted(interval, [f], denom, ops.sqrt);
    var path := NoPathFeatureMap();
    assert PathPart([f], [], denom, ops) == path;
    assert FixAngPathOutcome(interval, [f], denom, ops).0 == counted + path;
    CountedValues(interval, [f], denom, ops.sqrt);
    NoPathFeatureMapValues();
    AngleCountsOutsideFixations();
  }

  /** So a cycle that sees exactly one new fixation makes the path merge
      raise a KeyError on 'numabsangles', whatever the accumulator. */
  lemma OneFixationPathMergeRaises(interval: FeatureMap, f: Fixation, denom: real, ops: MathOps,
                                   acc: FeatureMap, mergeDenom: real)
    requires denom != 0.0
    requires NumAbsAngles !in interval && NumRelAngles !in interval
    requires NumFixDistances in acc
    ensures MergePathAngle(FixAngPathOutcome(interval, [f], denom, ops).0, acc, mergeDenom, ops.sqrt).err == Some(MissingKey(NumAbsAngles))
  {
    OneFixationLeavesAngleCountsUnset(interval, f, denom, ops);
  }

  lemma AngleCountsOutsideFixations()
    ensures NumAbsAngles !in FixationKeys + PathStatisticKeys + {NumFixDistances}
    ensures NumRelAngles !in FixationKeys + PathStatisticKeys + {NumFixDistances}
  {
  }

  /** With at least two new fixations and no error, the path counts are
      the numbers of saccades and turns, the mean saccade length is the
      mean of the lengths, and the eye-movement velocity is the total
      saccade length per unit of valid time. */
  lemma PathCounts(interval: FeatureMap, fixes: seq<Fixation>, denom: real, ops: MathOps)
    requires |fixes| >= 2
    requires FixAngPathOutcome(interval, fixes, denom, ops).1.None?
    ensures FixAngPathOutcome(interval, fixes, denom, ops).0[NumFixDistances] == (|fixes| - 1) as real
    ensures FixAngPathOutcome(interval, fixes, denom, ops).0[NumAbsAngles] == (|fixes| - 1) as real
    ensures FixAngPathOutcome(interval, fixes, denom, ops).0[NumRelAngles] == (|fixes| - 2) as real
    ensures FixAngPathOutcome(interval, fixes, denom, ops).0[MeanPathDistance] == Mean(PathDistances(fixes, ops.sqrt))
    ensures FixAngPathOutcome(interval, fixes, denom, ops).0[EyeMovementVelocity] == Per(Sum(PathDistances(fixes, ops.sqrt)), denom)
  {
    var n := |fixes|;
    FixationCounts(interval, fixes, denom, ops);
    PathFeatureMapKeys(PathDistances(fixes, ops.sqrt), PathAbsAngles(fixes, ops.direction), PathRelAngles(fixes, ops).value, denom, ops.sqrt);
    var rel := PathRelAngles(fixes, ops);
    var counted := Counted(interval, fixes, denom, ops.sqrt);
    var ds := PathDistances(fixes, ops.sqrt);
    var abs := PathAbsAngles(fixes, ops.direction);
    assert |ds| == n - 1 && |abs| == n - 1 && |rel.value| == n - 2;
    var path := PathFeatureMap(ds, abs, rel.value, denom, ops.sqrt);
    assert PathPart(fixes, rel.value, denom, ops) == path;
    assert FixAngPathOutcome(interval, fixes, denom, ops).0 == counted + path;
    PathFeatureMapValues(ds, abs, rel.value, denom, ops.sqrt);
  }

  // ---------------------------------------------------------------------
  // An interval folded into an accumulator
  // ---------------------------------------------------------------------

  /** Incremental exactness of the pupil features: when the accumulator
      summarises the earlier valid sizes `t` and velocities `u`, merging
      this interval's pupil features into it gives the summary of all the
      valid sizes and velocities seen so far. */
  lemma PupilIntervalMergesExactly(sizes: seq<real>, vels: seq<real>, acc: FeatureMap,
                                   t: seq<real>, u: seq<real>, sqrt: real -> real)
    requires IsSqrt(sqrt)
    requires Summarises(acc, PupilSizeKeys, t, sqrt) && Summarises(acc, PupilVelocityKeys, u, sqrt)
    requires |sizes| > 0 && |vels| > 0 && |t| > 0 && |u| > 0
    ensures MergePupil(PupilFeatureMap(sizes, vels, sqrt), acc, sqrt).err.None?
    ensures Summarises(MergePupil(PupilFeatureMap(sizes, vels, sqrt), acc, sqrt).acc, PupilSizeKeys, sizes + t, sqrt)
    ensures Summarises(MergePupil(PupilFeatureMap(sizes, vels, sqrt), acc, sqrt).acc, PupilVelocityKeys, vels + u, sqrt)
  {
    var p := PupilFeatureMap(sizes, vels, sqrt);
    PupilFeatureMapValues(sizes, vels, sqrt);
    MergePupilMerges(p, acc, sqrt);
    var b := MergePupil(p, acc, sqrt).acc;
    MergeStatsExact(p, acc, b, PupilSizeKeys, sizes, t, sqrt);
    MergeStatsExact(p, acc, b, PupilVelocityKeys, vels, u, sqrt);
  }

  /** The same for the head distances, whose merge keeps the old mean but
      still adds the counts exactly and keeps the extremes. */
  lemma DistanceIntervalMergeCounts(ds: seq<real>, acc: FeatureMap, t: seq<real>, sqrt: real -> real)
    requires Summarises(acc, DistanceKeys, t, sqrt)
    requires |ds| > 0 && |t| > 0
    ensures MergeDistance(DistanceFeatureMap(ds, sqrt), acc, sqrt).err.None?
    ensures MergeDistance(DistanceFeatureMap(ds, sqrt), acc, sqrt).acc[NumDistanceData] == (|ds| + |t|) as real
    ensures MergeDistance(DistanceFeatureMap(ds, sqrt), acc, sqrt).acc[MaxDistance] == Max(ds + t)
    ensures MergeDistance(DistanceFeatureMap(ds, sqrt), acc, sqrt).acc[MinDistance] == Min(ds + t)
  {
    var p := DistanceFeatureMap(ds, sqrt);
    DistanceFeatureMapValues(ds, sqrt);
    MergeDistanceMerges(p, acc, sqrt);
    MinConcat(ds, t);
    MaxConcat(ds, t);
  }
}
