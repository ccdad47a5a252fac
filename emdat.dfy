/** The incremental feature engine `EMDATComponent`: per-channel cursors into
    the tracker's append-only sample arrays, the interval extractors that
    consume the samples past each cursor, the validity-gap scan, and the
    cycle `run` that extracts one interval and folds it into the task and
    global accumulators. */
module Emdat {
  import opened Features
  import opened Stats
  import opened Merge
  import opened Gaps
  import opened Path
  import opened Extract

  /** The gaze tracker's state as the engine reads it: one entry per sample
      in `time`, the pupil series, the head distances and the validity
      flags, the list of completed fixations, and the global accumulator
      the engine merges into. */
  class GazeTracker {
    var time: seq<real>
    var pupilSize: seq<real>
    var pupilVelocity: seq<real>
    var headDistance: seq<real>
    var validity: seq<bool>
    var endFixations: seq<Fixation>
    var globalFeatures: FeatureMap

    constructor (globalFeatures: FeatureMap)
      ensures time == [] && pupilSize == [] && pupilVelocity == [] && headDistance == []
      ensures validity == [] && endFixations == []
      ensures this.globalFeatures == globalFeatures
    {
      time, pupilSize, pupilVelocity, headDistance := [], [], [], [];
      validity, endFixations := [], [];
      this.globalFeatures := globalFeatures;
    }
  }

  /** Python's `s[k:]`: the entries from index `k` on, none when `k` is past
      the end. */
  function From<T>(s: seq<T>, k: nat): (r: seq<T>)
    ensures k <= |s| ==> |r| == |s| - k && forall i :: 0 <= i < |r| ==> r[i] == s[k + i]
    ensures k > |s| ==> r == []
  {
    if k <= |s| then s[k..] else []
  }

  /** Where a `while idx < len(s): idx += 1` loop leaves its cursor. */
  function Advanced(k: nat, n: nat): (r: nat)
    ensures r >= k && r >= n
    ensures r == k || r == n
  {
    if k <= n then n else k
  }

  /** The cursor loops of lines 151-155, 158-162 and 220-224: every sample
      from the cursor to the end is looked at once and those passing
      `valid` are kept in order. */
  method CollectValid(s: seq<real>, cursor: nat, valid: real -> bool) returns (kept: seq<real>, next: nat)
    ensures next == Advanced(cursor, |s|)
    ensures kept == Keep(From(s, cursor), valid)
  {
    kept := [];
    next := cursor;
    if cursor > |s| {
      assert From(s, cursor) == [];
      return;
    }
    while next < |s|
      invariant cursor <= next <= |s|
      invariant kept == Keep(s[cursor..next], valid)
    {
      assert s[cursor..next + 1][..next - cursor] == s[cursor..next];
      if valid(s[next]) {
        kept := kept + [s[next]];
      }
      next := next + 1;
    }
    assert s[cursor..next] == From(s, cursor);
  }

  /** A second look at the same samples finds no sample. */
  lemma NothingPastTheEnd(s: seq<real>, cursor: nat, valid: real -> bool)
    requires cursor >= |s|
    ensures Keep(From(s, cursor), valid) == []
    ensures Advanced(cursor, |s|) == cursor
  {
    assert From(s, cursor) == [];
  }

  /** Successive reads neither skip nor repeat a sample: what is kept from
      the old cursor equals what the first read kept followed by what the
      second read keeps from where the first one stopped. */
  lemma ReadsCompose(s: seq<real>, cursor: nat, n: nat, valid: real -> bool)
    requires cursor <= n <= |s|
    ensures Keep(From(s, cursor), valid) == Keep(From(s[..n], cursor), valid) + Keep(From(s, Advanced(cursor, n)), valid)
  {
    assert From(s, cursor) == s[cursor..n] + s[n..];
    assert From(s[..n], cursor) == s[cursor..n];
    KeepConcat(s[cursor..n], s[n..], valid);
  }

  /** Lines 269-271 and 281-313: the three path helpers, then the path
      features of their results, or the exception the relative angles
      raise. */
  method PathFeatures(fixdata: seq<Fixation>, denom: real, ops: MathOps) returns (r: Result<FeatureMap>)
    requires |fixdata| > 0 && denom != 0.0
    ensures PathRelAngles(fixdata, ops).Err? ==> r == Err(PathRelAngles(fixdata, ops).error)
    ensures PathRelAngles(fixdata, ops).Ok? ==> r == Ok(PathPart(fixdata, PathRelAngles(fixdata, ops).value, denom, ops))
  {
    var distances := CalcDistances(fixdata, ops.sqrt);
    var absAngles := CalcAbsAngles(fixdata, ops.direction);
    var relAngles := CalcRelAngles(fixdata, ops);
    if relAngles.Err? {
      return Err(relAngles.error);
    }
    if |distances| > 0 {
      r := Ok(PathFeatureMap(distances, absAngles, relAngles.value, denom, ops.sqrt));
    } else {
      r := Ok(NoPathFeatureMap());
    }
  }

  /** The body of `calc_fix_ang_path_features` after the cursor moved:
      the writes into the interval dictionary `interval` for the new
      fixations `fixationData`, stopping at the first exception. */
  method FixAngPath(interval: FeatureMap, fixationData: seq<Fixation>, denom: real, ops: MathOps)
    returns (features: FeatureMap, err: Option<Error>)
    ensures (features, err) == FixAngPathOutcome(interval, fixationData, denom, ops)
  {
    var n := |fixationData|;
    features := interval;
    if n == 0 {
      features := features + NoFixationFeatureMap();
      OutcomeWithoutFixations(interval, fixationData, denom, ops);
      return features, Some(DistancesUnbound);
    }
    features := features + DurationFeatureMap(Durations(fixationData), ops.sqrt);
    if denom == 0.0 {
      OutcomeOfZeroLength(interval, fixationData, ops);
      return features, Some(ZeroDivision);
    }
    features, err := RateAndPath(interval, features, fixationData, denom, ops);
  }

  /** The rest of `FixAngPath` once the duration statistics are written:
      the fixation rate, the path helpers, the fixation count and the path
      features. */
  method RateAndPath(interval: FeatureMap, withDurations: FeatureMap, fixationData: seq<Fixation>, denom: real, ops: MathOps)
    returns (features: FeatureMap, err: Option<Error>)
    requires |fixationData| > 0 && denom != 0.0
    requires withDurations == interval + DurationFeatureMap(Durations(fixationData), ops.sqrt)
    ensures (features, err) == FixAngPathOutcome(interval, fixationData, denom, ops)
  {
    var n := |fixationData|;
    features := withDurations[FixationRate := Per(n as real, denom)];
    var path := PathFeatures(fixationData, denom, ops);
    if path.Err? {
      OutcomeOfFailedTurn(interval, fixationData, denom, ops);
      return features, Some(path.error);
    }
    features := features[NumFixations := n as real];
    features := features + path.value;
    OutcomeOfSuccess(interval, fixationData, denom, ops);
    err := None;
  }

  /** What the enabled extractors of one cycle leave in the interval
      dictionary `interval`, given the valid new pupil sizes, pupil
      velocities and head distances and the new fixations, and the exception
      the fixation extractor raises, if any. */
  function CycleInterval(cfg: Params, interval: FeatureMap, sizes: seq<real>, velocities: seq<real>,
                         distances: seq<real>, fixes: seq<Fixation>, denom: real, ops: MathOps): (FeatureMap, Option<Error>)
  {
    var afterPupil := if cfg.usePupil then interval + PupilFeatureMap(sizes, velocities, ops.sqrt) else interval;
    var afterDistance := if cfg.useDistance then afterPupil + DistanceFeatureMap(distances, ops.sqrt) else afterPupil;
    if cfg.useFixationPath then FixAngPathOutcome(afterDistance, fixes, denom, ops) else (afterDistance, None)
  }

  /** Lines 54-60 of `run`: how the keep flags fold the interval `interval`
      into the task accumulator `task` and the global one `global`: the new
      task and global accumulators and the exception of the first merge
      that raised.  The task is merged first and, if that merge went
      through, merged on into the global accumulator; without the task flag
      the interval goes straight into the global one. */
  function FoldOutcome(cfg: Params, interval: FeatureMap, task: FeatureMap, global: FeatureMap, denom: real, sqrt: real -> real)
    : (FeatureMap, FeatureMap, Option<Error>)
  {
    if cfg.keepTask then
      var toTask := MergeFeatures(cfg, interval, task, denom, sqrt);
      if toTask.err.Some? || !cfg.keepGlobal then (toTask.acc, global, toTask.err)
      else
        var toGlobal := MergeFeatures(cfg, toTask.acc, global, denom, sqrt);
        (toTask.acc, toGlobal.acc, toGlobal.err)
    else if cfg.keepGlobal then
      var toGlobal := MergeFeatures(cfg, interval, global, denom, sqrt);
      (task, toGlobal.acc, toGlobal.err)
    else
      (task, global, None)
  }

  /** The fold changes an accumulator only under the keys the merges
      write, leaves an accumulator whose flag is off untouched, and raises
      nothing when neither accumulator is kept. */
  lemma FoldFrame(cfg: Params, interval: FeatureMap, task: FeatureMap, global: FeatureMap, denom: real, sqrt: real -> real)
    ensures SameOutside(task, FoldOutcome(cfg, interval, task, global, denom, sqrt).0, MergeKeys)
    ensures SameOutside(global, FoldOutcome(cfg, interval, task, global, denom, sqrt).1, MergeKeys)
    ensures !cfg.keepTask ==> FoldOutcome(cfg, interval, task, global, denom, sqrt).0 == task
    ensures !cfg.keepGlobal ==> FoldOutcome(cfg, interval, task, global, denom, sqrt).1 == global
    ensures !cfg.keepTask && !cfg.keepGlobal ==> FoldOutcome(cfg, interval, task, global, denom, sqrt).2 == None
  {
    if cfg.keepTask {
      var toTask := MergeFeatures(cfg, interval, task, denom, sqrt);
      if !toTask.err.Some? && cfg.keepGlobal {
        var toGlobal := MergeFeatures(cfg, toTask.acc, global, denom, sqrt);
      }
    } else if cfg.keepGlobal {
      var toGlobal := MergeFeatures(cfg, interval, global, denom, sqrt);
    }
  }

  /** With every extractor switched off the merges write nothing, so the
      fold leaves both accumulators as they were, whatever the keep flags. */
  lemma FoldWithoutExtractors(cfg: Params, interval: FeatureMap, task: FeatureMap, global: FeatureMap, denom: real, sqrt: real -> real)
    requires !cfg.usePupil && !cfg.useDistance && !cfg.useFixationPath
    ensures FoldOutcome(cfg, interval, task, global, denom, sqrt) == (task, global, None)
  {
    var toTask := MergeFeatures(cfg, interval, task, denom, sqrt);
    var toGlobal := MergeFeatures(cfg, interval, global, denom, sqrt);
    var chained := MergeFeatures(cfg, toTask.acc, global, denom, sqrt);
  }

  /** Lines 54-60 of `run`: the merges the keep flags ask for. */
  method Fold(cfg: Params, interval: FeatureMap, task: FeatureMap, global: FeatureMap, denom: real, sqrt: real -> real)
    returns (task': FeatureMap, global': FeatureMap, err: Option<Error>)
    ensures (task', global', err) == FoldOutcome(cfg, interval, task, global, denom, sqrt)
  {
    task', global', err := task, global, None;
    if cfg.keepTask {
      var toTask := MergeFeatures(cfg, interval, task, denom, sqrt);
      task' := toTask.acc;
      if toTask.err.Some? {
        return task', global', toTask.err;
      }
      if cfg.keepGlobal {
        var toGlobal := MergeFeatures(cfg, task', global, denom, sqrt);
        global', err := toGlobal.acc, toGlobal.err;
      }
    } else if cfg.keepGlobal {
      var toGlobal := MergeFeatures(cfg, interval, global, denom, sqrt);
      global', err := toGlobal.acc, toGlobal.err;
    }
  }

  /** The samples one cycle's extractors read: the valid pupil sizes,
      the valid pupil velocities, the valid head distances and the new
      fixations. */
  datatype Samples = Samples(sizes: seq<real>, velocities: seq<real>, distances: seq<real>, fixes: seq<Fixation>)

  /** What lines 36-60 of `run` leave behind: the interval dictionary,
      the task and global accumulators, and the exception raised, if any. */
  datatype Outcome = Outcome(interval: FeatureMap, task: FeatureMap, global: FeatureMap, err: Option<Error>)

  /** Lines 36-60 of `run` on values: the enabled extractors, in order,
      applied to the interval dictionary `interval` with the samples `samples`,
      then, if the fixation extractor raised nothing, the merges into the
      task accumulator `task` and the global one `global`. */
  function IntervalAndFold(cfg: Params, ops: MathOps, interval: FeatureMap, task: FeatureMap, global: FeatureMap,
                           samples: Samples, denom: real): Outcome
  {
    var cycle := CycleInterval(cfg, interval, samples.sizes, samples.velocities, samples.distances, samples.fixes, denom, ops);
    if cycle.1.Some? then Outcome(cycle.0, task, global, cycle.1)
    else
      var fold := FoldOutcome(cfg, cycle.0, task, global, denom, ops.sqrt);
      Outcome(cycle.0, fold.0, fold.1, fold.2)
  }

  /** The extractors and merges as `IntervalAndFold` describes them. */
  method ExtractAndFold(cfg: Params, ops: MathOps, interval: FeatureMap, task: FeatureMap, global: FeatureMap,
                        samples: Samples, denom: real) returns (o: Outcome)
    ensures o == IntervalAndFold(cfg, ops, interval, task, global, samples, denom)
  {
    var features := interval;
    if cfg.usePupil {
      features := features + PupilFeatureMap(samples.sizes, samples.velocities, ops.sqrt);
    }
    if cfg.useDistance {
      features := features + DistanceFeatureMap(samples.distances, ops.sqrt);
    }
    var err := None;
    if cfg.useFixationPath {
      features, err := FixAngPath(features, samples.fixes, denom, ops);
    }
    if err.Some? {
      return Outcome(features, task, global, err);
    }
    var task', global', foldErr := Fold(cfg, features, task, global, denom, ops.sqrt);
    o := Outcome(features, task', global', foldErr);
  }

  /** The tracker's recorded series as one value. */
  datatype Recording = Recording(time: seq<real>, pupilSize: seq<real>, pupilVelocity: seq<real>,
                                 headDistance: seq<real>, validity: seq<bool>, endFixations: seq<Fixation>)

  /** The attributes of the component that a cycle reads and writes: the
      four cursors, the interval bounds, the gaps, the interval dictionary
      and the task accumulator. */
  datatype Engine = Engine(pupsIdx: nat, pupvIdx: nat, distIdx: nat, fixIdx: nat,
                           start: real, end: real, length: real, lengthInvalid: real,
                           timeGaps: Option<seq<Gap>>, interval: FeatureMap, task: FeatureMap)

  /** What `time_gaps` holds after `calc_validity_gaps` (lines 570-598):
      before the first fixation it is left alone, afterwards it is the gaps
      of the whole validity series. */
  function ScannedGaps(rec: Recording, timeGaps: Option<seq<Gap>>): Option<seq<Gap>>
    requires |rec.validity| <= |rec.time|
  {
    if |rec.endFixations| == 0 then timeGaps
    else
      GapPairsWithin(rec.validity, |rec.time|);
      Some(GapTimes(rec.time, GapPairs(rec.validity)))
  }

  /** The samples an enabled extractor reads: the valid ones past its
      cursor; a disabled extractor reads nothing. */
  function ReadBy(enabled: bool, s: seq<real>, cursor: nat, valid: real -> bool): seq<real> {
    if enabled then Keep(From(s, cursor), valid) else []
  }

  /** Where the cursor of an extractor ends up: at the end of its series
      if the extractor ran, where it was otherwise. */
  function MovedBy(enabled: bool, s: nat, cursor: nat): nat {
    if enabled then Advanced(cursor, s) else cursor
  }

  /** Lines 28-34 of `run`: the attributes once the interval bounds are
      read, the gaps rescanned, the interval dictionary emptied, the task
      accumulator reset and, if the gaps are set, the invalid length
      summed.  Needs a time stamp to read. */
  function Begun(rec: Recording, e: Engine): Engine
    requires |rec.validity| <= |rec.time| && |rec.time| > 0
  {
    var gaps := ScannedGaps(rec, e.timeGaps);
    e.(start := rec.time[0], end := rec.time[|rec.time| - 1], length := rec.time[|rec.time| - 1] - rec.time[0],
       timeGaps := gaps, interval := map[], task := InitialTaskFeatures(),
       lengthInvalid := if gaps.None? then e.lengthInvalid else TotalGapLength(gaps.value))
  }

  /** Lines 36-60 of `run` from the attributes `b` a begun cycle left: the
      enabled extractors read past their cursors, which move to the ends of
      their series, and, if the fixation extractor raised nothing, the
      interval is folded into the task and global accumulators. */
  function Extracted(cfg: Params, ops: MathOps, rec: Recording, b: Engine, global: FeatureMap)
    : (Engine, FeatureMap, Option<Error>)
  {
    var o := IntervalAndFold(cfg, ops, b.interval, b.task, global, Read(cfg, rec, b), Denominator(b));
    (Moved(cfg, rec, b).(interval := o.interval, task := o.task), o.global, o.err)
  }

  /** The length of the interval less its gaps, by which the rates are
      divided (`self.length - self.length_invalid`). */
  function Denominator(e: Engine): real {
    e.length - e.lengthInvalid
  }

  /** The samples the enabled extractors read past the cursors of `b`. */
  function Read(cfg: Params, rec: Recording, b: Engine): Samples {
    Samples(ReadBy(cfg.usePupil, rec.pupilSize, b.pupsIdx, IsPupilSize),
            ReadBy(cfg.usePupil, rec.pupilVelocity, b.pupvIdx, IsPupilVelocity),
            ReadBy(cfg.useDistance, rec.headDistance, b.distIdx, IsHeadDistance),
            if cfg.useFixationPath then From(rec.endFixations, b.fixIdx) else [])
  }

  /** The attributes `b` once the enabled extractors moved their cursors
      to the ends of their series. */
  function Moved(cfg: Params, rec: Recording, b: Engine): Engine {
    b.(pupsIdx := MovedBy(cfg.usePupil, |rec.pupilSize|, b.pupsIdx),
       pupvIdx := MovedBy(cfg.usePupil, |rec.pupilVelocity|, b.pupvIdx),
       distIdx := MovedBy(cfg.useDistance, |rec.headDistance|, b.distIdx),
       fixIdx := if cfg.useFixationPath then |rec.endFixations| else b.fixIdx)
  }

  /** One cycle of `run` (lines 24-63) on the recording `rec`, from the
      attributes `e` and the global accumulator `global`: the new
      attributes, the new global accumulator and the exception raised, if
      any.  Reading the first time stamp of an empty series raises before
      anything is assigned; reading unset gaps raises once the bounds, the
      interval dictionary and the task accumulator are reset. */
  function CycleOutcome(cfg: Params, ops: MathOps, rec: Recording, e: Engine, global: FeatureMap)
    : (Engine, FeatureMap, Option<Error>)
    requires |rec.validity| <= |rec.time|
  {
    if |rec.time| == 0 then (e, global, Some(EmptyTimeSeries))
    else
      var b := Begun(rec, e);
      if b.timeGaps.None? then (b, global, Some(TimeGapsUnset)) else Extracted(cfg, ops, rec, b, global)
  }

  /** The time between the first and the last time stamp. */
  function Span(time: seq<real>): real
    requires |time| > 0
  {
    time[|time| - 1] - time[0]
  }

  /** Samples are only ever appended: each series of `rec'` starts with
      the corresponding series of `rec`. */
  predicate Extends(rec: Recording, rec': Recording)
  {
    && rec.time <= rec'.time && rec.pupilSize <= rec'.pupilSize && rec.pupilVelocity <= rec'.pupilVelocity
    && rec.headDistance <= rec'.headDistance && rec.validity <= rec'.validity && rec.endFixations <= rec'.endFixations
  }

  /** No cursor points past the end of its series. */
  predicate CursorsWithin(rec: Recording, e: Engine)
  {
    && e.pupsIdx <= |rec.pupilSize| && e.pupvIdx <= |rec.pupilVelocity|
    && e.distIdx <= |rec.headDistance| && e.fixIdx <= |rec.endFixations|
  }

  /** The beginning of a cycle.  With no time stamp it raises before any
      attribute changes.  Otherwise it reads the bounds of the interval,
      rescans the gaps, empties the interval dictionary and resets the task
      accumulator; if the gaps are still unset it then raises
      `TimeGapsUnset` with the cursors, the invalid length and the global
      accumulator as they were, and otherwise it records the total length
      of the gaps. */
  lemma CycleBegins(cfg: Params, ops: MathOps, rec: Recording, e: Engine, global: FeatureMap)
    requires |rec.validity| <= |rec.time|
    ensures |rec.time| == 0 ==> CycleOutcome(cfg, ops, rec, e, global) == (e, global, Some(EmptyTimeSeries))
    ensures |rec.time| > 0 ==>
      var r := CycleOutcome(cfg, ops, rec, e, global);
      && r.0.start == rec.time[0] && r.0.end == rec.time[|rec.time| - 1] && r.0.length == Span(rec.time)
      && r.0.timeGaps == ScannedGaps(rec, e.timeGaps)
      && (r.0.timeGaps.Some? ==> r.0.lengthInvalid == TotalGapLength(r.0.timeGaps.value))
      && (r.0.timeGaps.None? ==>
            && r.1 == global && r.2 == Some(TimeGapsUnset)
            && r.0.interval == map[] && r.0.task == InitialTaskFeatures() && r.0.lengthInvalid == e.lengthInvalid
            && r.0.pupsIdx == e.pupsIdx && r.0.pupvIdx == e.pupvIdx && r.0.distIdx == e.distIdx && r.0.fixIdx == e.fixIdx)
  {
    if |rec.time| > 0 {
      var b := Begun(rec, e);
      assert b.length == Span(rec.time);
      if b.timeGaps.Some? {
        var o := IntervalAndFold(cfg, ops, b.interval, b.task, global, Read(cfg, rec, b), Denominator(b));
        assert CycleOutcome(cfg, ops, rec, e, global).0 == Moved(cfg, rec, b).(interval := o.interval, task := o.task);
      }
    }
  }

  /** Once a fixation has been seen the gaps are those of the whole
      validity series: one per recorded pair, each running from the time
      stamp of the first sample of a run of invalid samples to that of a
      later sample, every sample in between being invalid. */
  lemma CycleRecordsGaps(cfg: Params, ops: MathOps, rec: Recording, e: Engine, global: FeatureMap)
    requires |rec.validity| <= |rec.time| && |rec.time| > 0 && |rec.endFixations| > 0
    ensures var gaps := CycleOutcome(cfg, ops, rec, e, global).0.timeGaps;
      && gaps.Some? && |gaps.value| == |GapPairs(rec.validity)|
      && forall i :: 0 <= i < |gaps.value| ==>
           && SoundPair(rec.validity, GapPairs(rec.validity)[i])
           && gaps.value[i] == Gap(rec.time[GapPairs(rec.validity)[i].0], rec.time[GapPairs(rec.validity)[i].1])
  {
    CycleBegins(cfg, ops, rec, e, global);
    GapPairsSound(rec.validity);
    GapPairsWithin(rec.validity, |rec.time|);
    GapTimesAt(rec.time, GapPairs(rec.validity));
  }

  /** An extractor that reads again from where it stopped, after samples
      were appended to its series, reads only the appended ones; together
      with what it read before, that is what one read from its old cursor
      would have found. */
  lemma ReadAfterMove(enabled: bool, s: seq<real>, s': seq<real>, cursor: nat, valid: real -> bool)
    requires s <= s' && cursor <= |s|
    ensures MovedBy(enabled, |s|, cursor) <= |s|
    ensures ReadBy(enabled, s', MovedBy(enabled, |s|, cursor), valid) == (if enabled then Keep(s'[|s|..], valid) else [])
    ensures ReadBy(enabled, s, cursor, valid) + ReadBy(enabled, s', MovedBy(enabled, |s|, cursor), valid) == ReadBy(enabled, s', cursor, valid)
  {
    if enabled {
      assert s'[..|s|] == s;
      ReadsCompose(s', cursor, |s|, valid);
    }
  }

  /** The fixations past a cursor, then those appended at the end of the
      series, are the fixations of the grown series past that cursor. */
  lemma FromAfterMove(f: seq<Fixation>, f': seq<Fixation>, cursor: nat)
    requires f <= f' && cursor <= |f|
    ensures From(f', |f|) == f'[|f|..]
    ensures From(f, cursor) + From(f', |f|) == From(f', cursor)
  {
    assert f'[..|f|] == f;
  }

  /** `a` and `b` hold the same four cursors. */
  predicate SameCursors(a: Engine, b: Engine)
  {
    a.pupsIdx == b.pupsIdx && a.pupvIdx == b.pupvIdx && a.distIdx == b.distIdx && a.fixIdx == b.fixIdx
  }

  /** Once the enabled extractors have moved their cursors `b` to the ends
      of their series, reading the grown recording `rec'` from the moved
      cursors `c` finds exactly the appended samples. */
  lemma MovedReadsAppended(cfg: Params, rec: Recording, rec': Recording, b: Engine, c: Engine)
    requires CursorsWithin(rec, b) && Extends(rec, rec') && SameCursors(c, Moved(cfg, rec, b))
    ensures CursorsWithin(rec, c)
    ensures Read(cfg, rec', c) == Samples(
              if cfg.usePupil then Keep(rec'.pupilSize[|rec.pupilSize|..], IsPupilSize) else [],
              if cfg.usePupil then Keep(rec'.pupilVelocity[|rec.pupilVelocity|..], IsPupilVelocity) else [],
              if cfg.useDistance then Keep(rec'.headDistance[|rec.headDistance|..], IsHeadDistance) else [],
              if cfg.useFixationPath then rec'.endFixations[|rec.endFixations|..] else [])
  {
    ReadAfterMove(cfg.usePupil, rec.pupilSize, rec'.pupilSize, b.pupsIdx, IsPupilSize);
    ReadAfterMove(cfg.usePupil, rec.pupilVelocity, rec'.pupilVelocity, b.pupvIdx, IsPupilVelocity);
    ReadAfterMove(cfg.useDistance, rec.headDistance, rec'.headDistance, b.distIdx, IsHeadDistance);
    FromAfterMove(rec.endFixations, rec'.endFixations, b.fixIdx);
  }

  /** The read of the grown recording `rec'` from the moved cursors `c`,
      joined to the read of `rec` from `b`, is what one read of `rec'`
      from `b` would have found. */
  lemma MovedReadsCompose(cfg: Params, rec: Recording, rec': Recording, b: Engine, c: Engine)
    requires CursorsWithin(rec, b) && Extends(rec, rec') && SameCursors(c, Moved(cfg, rec, b))
    ensures Joined(Read(cfg, rec, b), Read(cfg, rec', c)) == Read(cfg, rec', b)
  {
    ReadAfterMove(cfg.usePupil, rec.pupilSize, rec'.pupilSize, b.pupsIdx, IsPupilSize);
    ReadAfterMove(cfg.usePupil, rec.pupilVelocity, rec'.pupilVelocity, b.pupvIdx, IsPupilVelocity);
    ReadAfterMove(cfg.useDistance, rec.headDistance, rec'.headDistance, b.distIdx, IsHeadDistance);
    FromAfterMove(rec.endFixations, rec'.endFixations, b.fixIdx);
  }

  /** The samples of `a` followed by those of `b`, series by series. */
  function Joined(a: Samples, b: Samples): Samples
  {
    Samples(a.sizes + b.sizes, a.velocities + b.velocities, a.distances + b.distances, a.fixes + b.fixes)
  }

  /** Samples being only appended, the next cycle reads exactly the
      samples appended since this one, and the two cycles together read
      what one cycle over the longer recording would have: no sample is
      read twice and none is skipped.  The cursors stay within their
      series. */
  lemma NextCycleReadsAppended(cfg: Params, ops: MathOps, rec: Recording, rec': Recording, e: Engine, global: FeatureMap)
    requires |rec.validity| <= |rec.time| && |rec.time| > 0 && ScannedGaps(rec, e.timeGaps).Some?
    requires CursorsWithin(rec, e)
    requires |rec'.validity| <= |rec'.time| && Extends(rec, rec')
    ensures |rec'.time| > 0
    ensures var e' := CycleOutcome(cfg, ops, rec, e, global).0;
      && CursorsWithin(rec, e')
      && Read(cfg, rec', Begun(rec', e')) == Samples(
           if cfg.usePupil then Keep(rec'.pupilSize[|rec.pupilSize|..], IsPupilSize) else [],
           if cfg.usePupil then Keep(rec'.pupilVelocity[|rec.pupilVelocity|..], IsPupilVelocity) else [],
           if cfg.useDistance then Keep(rec'.headDistance[|rec.headDistance|..], IsHeadDistance) else [],
           if cfg.useFixationPath then rec'.endFixations[|rec.endFixations|..] else [])
    ensures var e' := CycleOutcome(cfg, ops, rec, e, global).0;
      Joined(Read(cfg, rec, Begun(rec, e)), Read(cfg, rec', Begun(rec', e'))) == Read(cfg, rec', Begun(rec', e))
  {
    assert |rec.time| <= |rec'.time|;
    var b := Begun(rec, e);
    var e' := CycleOutcome(cfg, ops, rec, e, global).0;
    assert SameCursors(e', Moved(cfg, rec, b));
    var c := Begun(rec', e');
    MovedReadsAppended(cfg, rec, rec', b, c);
    MovedReadsCompose(cfg, rec, rec', b, c);
    assert Read(cfg, rec', Begun(rec', e)) == Read(cfg, rec', b);
  }

  /** Over a recording that does not grow, a second cycle reads nothing. */
  lemma SecondCycleReadsNothing(cfg: Params, ops: MathOps, rec: Recording, e: Engine, global: FeatureMap)
    requires |rec.validity| <= |rec.time| && |rec.time| > 0 && ScannedGaps(rec, e.timeGaps).Some?
    requires CursorsWithin(rec, e)
    ensures Read(cfg, rec, Begun(rec, CycleOutcome(cfg, ops, rec, e, global).0)) == Samples([], [], [], [])
  {
    NextCycleReadsAppended(cfg, ops, rec, rec, e, global);
  }

  /** A cycle changes the global accumulator only under the keys the
      merges write, and not at all unless it is kept.  Past its first time
      stamp, the task accumulator it leaves agrees with a freshly reset one
      outside those keys, and is the freshly reset one unless it is kept. */
  lemma CycleFrame(cfg: Params, ops: MathOps, rec: Recording, e: Engine, global: FeatureMap)
    requires |rec.validity| <= |rec.time|
    ensures SameOutside(global, CycleOutcome(cfg, ops, rec, e, global).1, MergeKeys)
    ensures !cfg.keepGlobal ==> CycleOutcome(cfg, ops, rec, e, global).1 == global
    ensures |rec.time| > 0 ==> SameOutside(InitialTaskFeatures(), CycleOutcome(cfg, ops, rec, e, global).0.task, MergeKeys)
    ensures |rec.time| > 0 && !cfg.keepTask ==> CycleOutcome(cfg, ops, rec, e, global).0.task == InitialTaskFeatures()
  {
    if |rec.time| > 0 {
      var b := Begun(rec, e);
      if b.timeGaps.Some? {
        var samples, denom := Read(cfg, rec, b), Denominator(b);
        var cycle := CycleInterval(cfg, b.interval, samples.sizes, samples.velocities, samples.distances, samples.fixes, denom, ops);
        FoldFrame(cfg, cycle.0, b.task, global, denom, ops.sqrt);
      }
    }
  }

  /** With every extractor switched off, a cycle that gets past the gaps
      leaves the cursors where they were, the interval dictionary empty,
      the task accumulator freshly reset and the global accumulator as it
      was, and raises nothing, whatever the keep flags. */
  lemma CycleWithoutExtractors(cfg: Params, ops: MathOps, rec: Recording, e: Engine, global: FeatureMap)
    requires |rec.validity| <= |rec.time| && |rec.time| > 0 && ScannedGaps(rec, e.timeGaps).Some?
    requires !cfg.usePupil && !cfg.useDistance && !cfg.useFixationPath
    ensures var r := CycleOutcome(cfg, ops, rec, e, global);
      && r.0.pupsIdx == e.pupsIdx && r.0.pupvIdx == e.pupvIdx && r.0.distIdx == e.distIdx && r.0.fixIdx == e.fixIdx
      && r.0.interval == map[] && r.0.task == InitialTaskFeatures() && r.1 == global && r.2 == None
  {
    var b := Begun(rec, e);
    FoldWithoutExtractors(cfg, map[], b.task, global, Denominator(b), ops.sqrt);
  }

  /** With the fixation extractor on, a cycle that gets past the gaps but
      finds no new fixation always raises `DistancesUnbound`, after writing
      a zero fixation count, and folds nothing into the accumulators. */
  lemma CycleWithoutNewFixations(cfg: Params, ops: MathOps, rec: Recording, e: Engine, global: FeatureMap)
    requires |rec.validity| <= |rec.time| && |rec.time| > 0 && ScannedGaps(rec, e.timeGaps).Some?
    requires cfg.useFixationPath && e.fixIdx >= |rec.endFixations|
    ensures var r := CycleOutcome(cfg, ops, rec, e, global);
      && r.2 == Some(DistancesUnbound) && r.1 == global && r.0.task == InitialTaskFeatures()
      && r.0.fixIdx == |rec.endFixations| && r.0.interval[NumFixations] == 0.0
  {
    var b := Begun(rec, e);
    var samples, denom := Read(cfg, rec, b), Denominator(b);
    assert samples.fixes == [];
    var cycle := CycleInterval(cfg, b.interval, samples.sizes, samples.velocities, samples.distances, samples.fixes, denom, ops);
    var afterPupil := if cfg.usePupil then b.interval + PupilFeatureMap(samples.sizes, samples.velocities, ops.sqrt) else b.interval;
    var afterDistance := if cfg.useDistance then afterPupil + DistanceFeatureMap(samples.distances, ops.sqrt) else afterPupil;
    NoFixationRaises(afterDistance, denom, ops);
  }

  /** A cycle that raises nothing with the fixation extractor on has read
      new fixations over an interval of non-zero valid length, and records
      their number, their summed duration and their number per unit of
      valid length. */
  lemma CycleCountsFixations(cfg: Params, ops: MathOps, rec: Recording, e: Engine, global: FeatureMap)
    requires |rec.validity| <= |rec.time| && cfg.useFixationPath
    requires CycleOutcome(cfg, ops, rec, e, global).2.None?
    ensures |rec.time| > 0 && e.fixIdx < |rec.endFixations| && Denominator(Begun(rec, e)) != 0.0
    ensures var interval := CycleOutcome(cfg, ops, rec, e, global).0.interval;
            var n := |rec.endFixations| - e.fixIdx;
      && interval[NumFixations] == n as real
      && interval[SumFixationDuration] == Sum(Durations(rec.endFixations[e.fixIdx..]))
      && interval[FixationRate] == Per(n as real, Denominator(Begun(rec, e)))
  {
    var b := Begun(rec, e);
    var samples, denom := Read(cfg, rec, b), Denominator(b);
    var afterPupil := if cfg.usePupil then b.interval + PupilFeatureMap(samples.sizes, samples.velocities, ops.sqrt) else b.interval;
    var afterDistance := if cfg.useDistance then afterPupil + DistanceFeatureMap(samples.distances, ops.sqrt) else afterPupil;
    FixationCounts(afterDistance, samples.fixes, denom, ops);
    assert samples.fixes == rec.endFixations[e.fixIdx..];
  }

  /** `calc_validity_gaps` (lines 570-598) on values: with no fixation yet
      it returns the span of the time stamps and leaves the gaps `timeGaps`
      alone; otherwise the gaps become those of the whole validity series,
      scanned from its first sample. */
  method ValidityGaps(rec: Recording, timeGaps: Option<seq<Gap>>) returns (timeGaps': Option<seq<Gap>>, r: Result<Option<real>>)
    requires |rec.validity| <= |rec.time|
    ensures timeGaps' == ScannedGaps(rec, timeGaps)
    ensures |rec.endFixations| == 0 && |rec.time| == 0 ==> r == Err(EmptyTimeSeries)
    ensures |rec.endFixations| == 0 && |rec.time| > 0 ==> r == Ok(Some(Span(rec.time)))
    ensures |rec.endFixations| > 0 ==> r == Ok(None)
  {
    timeGaps' := timeGaps;
    if |rec.endFixations| == 0 {
      if |rec.time| == 0 {
        return timeGaps', Err(EmptyTimeSeries);
      }
      return timeGaps', Ok(Some(Span(rec.time)));
    }
    var gaps := ScanValidityGaps(rec.validity, rec.time);
    timeGaps' := Some(gaps);
    r := Ok(None);
  }

  /** `get_length_invalid` (lines 807-816) on values: the summed length of
      the recorded gaps; unset gaps raise. */
  method LengthInvalid(timeGaps: Option<seq<Gap>>) returns (r: Result<real>)
    ensures timeGaps.None? ==> r == Err(TimeGapsUnset)
    ensures timeGaps.Some? ==> r == Ok(TotalGapLength(timeGaps.value))
  {
    if timeGaps.None? {
      return Err(TimeGapsUnset);
    }
    var gaps := timeGaps.value;
    var total := 0.0;
    for i := 0 to |gaps|
      invariant total == TotalGapLength(gaps[..i])
    {
      assert gaps[..i + 1][..i] == gaps[..i];
      total := total + (gaps[i].end - gaps[i].start);
    }
    assert gaps[..|gaps|] == gaps;
    r := Ok(total);
  }

  /** Lines 28-34 of `run` on values: the bounds, the gap scan, the reset
      interval dictionary and task accumulator, and the invalid length. */
  method BeginCycle(rec: Recording, e: Engine) returns (b: Engine, err: Option<Error>)
    requires |rec.validity| <= |rec.time| && |rec.time| > 0
    ensures b == Begun(rec, e)
    ensures err == (if b.timeGaps.None? then Some(TimeGapsUnset) else None)
  {
    var start, end := rec.time[0], rec.time[|rec.time| - 1];
    var timeGaps, _ := ValidityGaps(rec, e.timeGaps);
    var invalid := LengthInvalid(timeGaps);
    b := e.(start := start, end := end, length := end - start, timeGaps := timeGaps,
            interval := map[], task := InitialTaskFeatures(),
            lengthInvalid := if invalid.Ok? then invalid.value else e.lengthInvalid);
    err := if invalid.Err? then Some(invalid.error) else None;
  }

  /** The cursor loops of the enabled extractors (lines 151-162, 220-224
      and 260-262): the samples they read and where the cursors end up. */
  method ReadCursors(cfg: Params, rec: Recording, b: Engine) returns (samples: Samples, moved: Engine)
    ensures samples == Read(cfg, rec, b)
    ensures moved == Moved(cfg, rec, b)
  {
    var sizes, velocities, distances, fixes := [], [], [], [];
    var pups, pupv, dist, fix := b.pupsIdx, b.pupvIdx, b.distIdx, b.fixIdx;
    if cfg.usePupil {
      sizes, pups := CollectValid(rec.pupilSize, pups, IsPupilSize);
      velocities, pupv := CollectValid(rec.pupilVelocity, pupv, IsPupilVelocity);
    }
    if cfg.useDistance {
      distances, dist := CollectValid(rec.headDistance, dist, IsHeadDistance);
    }
    if cfg.useFixationPath {
      fixes := From(rec.endFixations, fix);
      fix := |rec.endFixations|;
    }
    samples := Samples(sizes, velocities, distances, fixes);
    moved := b.(pupsIdx := pups, pupvIdx := pupv, distIdx := dist, fixIdx := fix);
  }

  /** Lines 36-60 of `run` on values, as `Extracted` describes them: the
      cursor loops of the enabled extractors, then `ExtractAndFold`. */
  method ExtractCycle(cfg: Params, ops: MathOps, rec: Recording, b: Engine, global: FeatureMap)
    returns (e': Engine, global': FeatureMap, err: Option<Error>)
    ensures (e', global', err) == Extracted(cfg, ops, rec, b, global)
  {
    var samples, moved := ReadCursors(cfg, rec, b);
    var o := ExtractAndFold(cfg, ops, b.interval, b.task, global, samples, Denominator(b));
    e', global', err := moved.(interval := o.interval, task := o.task), o.global, o.err;
  }

  /** One cycle of `run` on values, as `CycleOutcome` describes it. */
  method Cycle(cfg: Params, ops: MathOps, rec: Recording, e: Engine, global: FeatureMap)
    returns (e': Engine, global': FeatureMap, err: Option<Error>)
    requires |rec.validity| <= |rec.time|
    ensures (e', global', err) == CycleOutcome(cfg, ops, rec, e, global)
  {
    if |rec.time| == 0 {
      return e, global, Some(EmptyTimeSeries);
    }
    var b;
    b, err := BeginCycle(rec, e);
    if err.Some? {
      return b, global, err;
    }
    e', global', err := ExtractCycle(cfg, ops, rec, b, global);
  }

  class EmdatComponent {
    const tracker: GazeTracker
    const cfg: Params
    const ops: MathOps

    var pupsIdx: nat
    var pupvIdx: nat
    var distIdx: nat
    var fixIdx: nat

    var start: real
    var end: real
    var length: real
    var lengthInvalid: real
    var timeGaps: Option<seq<Gap>>

    var intervalFeatures: FeatureMap
    var taskFeatures: FeatureMap

    /** The attributes as one value. */
    function State(): Engine
      reads this
    {
      Engine(pupsIdx, pupvIdx, distIdx, fixIdx, start, end, length, lengthInvalid, timeGaps, intervalFeatures, taskFeatures)
    }

    /** The tracker's series as one value. */
    function Recorded(): Recording
      reads tracker
    {
      Recording(tracker.time, tracker.pupilSize, tracker.pupilVelocity, tracker.headDistance,
                tracker.validity, tracker.endFixations)
    }

    /** Lines 11-17: all four cursors start at 0.  The attributes `run`
        assigns before reading start out empty (`time_gaps` unset). */
    constructor (tracker: GazeTracker, cfg: Params, ops: MathOps)
      ensures this.tracker == tracker && this.cfg == cfg && this.ops == ops
      ensures pupsIdx == 0 && pupvIdx == 0 && distIdx == 0 && fixIdx == 0
      ensures timeGaps == None
      ensures intervalFeatures == map[] && taskFeatures == map[]
    {
      this.tracker := tracker;
      this.cfg := cfg;
      this.ops := ops;
      pupsIdx, pupvIdx, distIdx, fixIdx := 0, 0, 0, 0;
      start, end, length, lengthInvalid := 0.0, 0.0, 0.0, 0.0;
      timeGaps := None;
      intervalFeatures, taskFeatures := map[], map[];
    }

    /** `calc_pupil_features` (lines 126-199): both pupil cursors move to
        the end of their series and the interval holds the features of the
        valid values read on the way. */
    method CalcPupilFeatures()
      modifies this
      ensures pupsIdx == Advanced(old(pupsIdx), |tracker.pupilSize|)
      ensures pupvIdx == Advanced(old(pupvIdx), |tracker.pupilVelocity|)
      ensures intervalFeatures == old(intervalFeatures) + PupilFeatureMap(
                Keep(From(tracker.pupilSize, old(pupsIdx)), IsPupilSize),
                Keep(From(tracker.pupilVelocity, old(pupvIdx)), IsPupilVelocity), ops.sqrt)
      ensures distIdx == old(distIdx) && fixIdx == old(fixIdx)
      ensures start == old(start) && end == old(end) && length == old(length) && lengthInvalid == old(lengthInvalid)
      ensures timeGaps == old(timeGaps) && taskFeatures == old(taskFeatures)
    {
      var sizes, ps := CollectValid(tracker.pupilSize, pupsIdx, IsPupilSize);
      pupsIdx := ps;
      var velocities, pv := CollectValid(tracker.pupilVelocity, pupvIdx, IsPupilVelocity);
      pupvIdx := pv;
      intervalFeatures := intervalFeatures + PupilFeatureMap(sizes, velocities, ops.sqrt);
    }

    /** `calc_distance_features` (lines 201-242). */
    method CalcDistanceFeatures()
      modifies this
      ensures distIdx == Advanced(old(distIdx), |tracker.headDistance|)
      ensures intervalFeatures == old(intervalFeatures) + DistanceFeatureMap(
                Keep(From(tracker.headDistance, old(distIdx)), IsHeadDistance), ops.sqrt)
      ensures pupsIdx == old(pupsIdx) && pupvIdx == old(pupvIdx) && fixIdx == old(fixIdx)
      ensures start == old(start) && end == old(end) && length == old(length) && lengthInvalid == old(lengthInvalid)
      ensures timeGaps == old(timeGaps) && taskFeatures == old(taskFeatures)
    {
      var distances, next := CollectValid(tracker.headDistance, distIdx, IsHeadDistance);
      distIdx := next;
      intervalFeatures := intervalFeatures + DistanceFeatureMap(distances, ops.sqrt);
    }

    /** `calc_fix_ang_path_features` (lines 244-313): the fixation cursor
        moves to the end of the fixation list, and the interval and the
        exception raised are those `FixAngPathOutcome` describes for the
        fixations past the old cursor. */
    method CalcFixAngPathFeatures() returns (err: Option<Error>)
      modifies this
      ensures fixIdx == |tracker.endFixations|
      ensures (intervalFeatures, err) ==
                FixAngPathOutcome(old(intervalFeatures), From(tracker.endFixations, old(fixIdx)), length - lengthInvalid, ops)
      ensures pupsIdx == old(pupsIdx) && pupvIdx == old(pupvIdx) && distIdx == old(distIdx)
      ensures start == old(start) && end == old(end) && length == old(length) && lengthInvalid == old(lengthInvalid)
      ensures timeGaps == old(timeGaps) && taskFeatures == old(taskFeatures)
    {
      var fixationData := From(tracker.endFixations, fixIdx);
      fixIdx := |tracker.endFixations|;
      intervalFeatures, err := FixAngPath(intervalFeatures, fixationData, length - lengthInvalid, ops);
    }

    /** `calc_validity_gaps` (lines 570-598) on the attributes. */
    method CalcValidityGaps() returns (r: Result<Option<real>>)
      requires |tracker.validity| <= |tracker.time|
      modifies this
      ensures timeGaps == ScannedGaps(Recorded(), old(timeGaps))
      ensures |tracker.endFixations| == 0 && |tracker.time| == 0 ==> r == Err(EmptyTimeSeries)
      ensures |tracker.endFixations| == 0 && |tracker.time| > 0 ==>
                r == Ok(Some(tracker.time[|tracker.time| - 1] - tracker.time[0]))
      ensures |tracker.endFixations| > 0 ==> r == Ok(None)
      ensures pupsIdx == old(pupsIdx) && pupvIdx == old(pupvIdx) && distIdx == old(distIdx) && fixIdx == old(fixIdx)
      ensures start == old(start) && end == old(end) && length == old(length) && lengthInvalid == old(lengthInvalid)
      ensures intervalFeatures == old(intervalFeatures) && taskFeatures == old(taskFeatures)
    {
      timeGaps, r := ValidityGaps(Recorded(), timeGaps);
    }

    /** `get_length_invalid` (lines 807-816) on the attributes. */
    method GetLengthInvalid() returns (r: Result<real>)
      ensures timeGaps.None? ==> r == Err(TimeGapsUnset)
      ensures timeGaps.Some? ==> r == Ok(TotalGapLength(timeGaps.value))
    {
      r := LengthInvalid(timeGaps);
    }

    /** `init_emdat_task_features` (lines 66-111). */
    method InitEmdatTaskFeatures()
      modifies this
      ensures taskFeatures == InitialTaskFeatures()
      ensures IsFreshAccumulator(taskFeatures)
      ensures pupsIdx == old(pupsIdx) && pupvIdx == old(pupvIdx) && distIdx == old(distIdx) && fixIdx == old(fixIdx)
      ensures start == old(start) && end == old(end) && length == old(length) && lengthInvalid == old(lengthInvalid)
      ensures timeGaps == old(timeGaps) && intervalFeatures == old(intervalFeatures)
    {
      taskFeatures := InitialTaskFeatures();
      InitialTaskFeaturesFresh();
    }

    /** `run` (lines 24-63): one cycle, as `CycleOutcome` describes it; the
        tracker's series are only read. */
    method Run() returns (err: Option<Error>)
      requires |tracker.validity| <= |tracker.time|
      modifies this, tracker
      ensures Recorded() == old(Recorded())
      ensures (State(), tracker.globalFeatures, err) ==
                CycleOutcome(cfg, ops, old(Recorded()), old(State()), old(tracker.globalFeatures))
    {
      var e, global;
      e, global, err := Cycle(cfg, ops, Recorded(), State(), tracker.globalFeatures);
      pupsIdx, pupvIdx, distIdx, fixIdx := e.pupsIdx, e.pupvIdx, e.distIdx, e.fixIdx;
      start, end, length, lengthInvalid, timeGaps := e.start, e.end, e.length, e.lengthInvalid, e.timeGaps;
      intervalFeatures, taskFeatures := e.interval, e.task;
      tracker.globalFeatures := global;
    }
  }
}
