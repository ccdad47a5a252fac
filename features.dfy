/** Shared vocabulary of the EMDAT feature engine: the names of the features
    kept in interval, task and global feature dictionaries, the records read
    from the gaze tracker, the errors the engine can raise, and the abstract
    numeric operations (square root, arccosine, saccade direction) that the
    engine takes from the platform. */
module Features {

  datatype Option<+T> = None | Some(value: T)

  /** The exceptions a cycle of the engine can raise. */
  datatype Error =
    | MissingKey(key: Feature)   // a dictionary lookup of a key that was never written
    | ZeroDivision               // a rate whose denominator length - length_invalid is zero
    | DistancesUnbound           // the path features read `distances` when no fixation arrived
    | EmptyTimeSeries            // `time[0]` on a tracker that has not produced a sample
    | TimeGapsUnset              // `time_gaps` read before any scan assigned it

  datatype Result<+T> = Ok(value: T) | Err(error: Error) {
    predicate IsFailure() { Err? }
    function PropagateFailure<U>(): Result<U> requires Err? { Err(error) }
    function Extract(): T requires Ok? { value }
  }

  /** The keys of a feature dictionary.  `MisspeltMeanDistance` is the key
      'mean_distance' that the distance merge writes instead of 'meandistance'. */
  datatype Feature =
    // pupil
    | NumPupilSizes | NumPupilVelocity
    | MeanPupilSize | StddevPupilSize | MaxPupilSize | MinPupilSize | StartPupilSize | EndPupilSize
    | MeanPupilVelocity | StddevPupilVelocity | MaxPupilVelocity | MinPupilVelocity
    // distance from the screen
    | NumDistanceData
    | MeanDistance | StddevDistance | MaxDistance | MinDistance | StartDistance | EndDistance
    | MisspeltMeanDistance
    // scan path and saccade angles
    | NumFixDistances | NumAbsAngles | NumRelAngles
    | MeanPathDistance | SumPathDistance | StddevPathDistance | EyeMovementVelocity
    | SumAbsPathAngles | AbsPathAnglesRate | MeanAbsPathAngles | StddevAbsPathAngles
    | SumRelPathAngles | RelPathAnglesRate | MeanRelPathAngles | StddevRelPathAngles
    // fixations
    | NumFixations | FixationRate | MeanFixationDuration | StddevFixationDuration | SumFixationDuration

  type FeatureMap = map<Feature, real>

  /** The value every statistic holds when it could not be computed. */
  const Sentinel: real := -1.0

  /** The switches of the `params` module the engine reads: which feature
      groups it computes and which accumulators it keeps. */
  datatype Params = Params(usePupil: bool, useDistance: bool, useFixationPath: bool, keepTask: bool, keepGlobal: bool)

  /** A fixation record of the tracker's `EndFixations` list: position
      (fields [0] and [1]) and duration (field [2]). */
  datatype Fixation = Fixation(x: real, y: real, duration: real)

  /** A (start time, end time) pair recorded by the validity-gap scan. */
  datatype Gap = Gap(start: real, end: real)

  /** The numeric operations the engine borrows from Python's `math` module
      and the unseen `geometry` module: `math.sqrt`, `math.acos`, and the
      angle that `geometry.vector_difference` reports for the vector between
      two points. */
  datatype MathOps = MathOps(sqrt: real -> real, acos: real -> real, direction: (real, real, real, real) -> real)

  /** `sqrt` is the non-negative square root on the non-negative reals. */
  ghost predicate IsSqrt(sqrt: real -> real) {
    forall x :: 0.0 <= x ==> 0.0 <= sqrt(x) && sqrt(x) * sqrt(x) == x
  }

  /** Dictionary lookup, failing as Python's `d[k]` does on a missing key. */
  function Get(m: FeatureMap, k: Feature): (r: Result<real>)
    ensures r.Ok? <==> k in m
    ensures r.Ok? ==> r.value == m[k]
    ensures r.Err? ==> r.error == MissingKey(k)
  {
    if k in m then Ok(m[k]) else Err(MissingKey(k))
  }

  /** Python's `/`, which raises on a zero denominator. */
  function Divide(a: real, b: real): (r: Result<real>)
    ensures r.Ok? <==> b != 0.0
    ensures r.Ok? ==> r.value * b == a
  {
    if b == 0.0 then Err(ZeroDivision) else Ok(a / b)
  }

  /** A rate: `x` per unit of `d`. */
  function Per(x: real, d: real): (r: real)
    requires d != 0.0
    ensures r * d == x
  {
    x / d
  }

  /** The count features: never the sentinel, zero when nothing was seen. */
  predicate IsCount(k: Feature) {
    k.NumPupilSizes? || k.NumPupilVelocity? || k.NumDistanceData? || k.NumFixDistances?
    || k.NumAbsAngles? || k.NumRelAngles? || k.NumFixations?
  }

  /** The keys that only an interval dictionary (or, for the misspelt key, a
      merged accumulator) holds: a fresh task accumulator lacks them. */
  predicate IsIntervalOnly(k: Feature) {
    k.StartPupilSize? || k.EndPupilSize? || k.StartDistance? || k.EndDistance? || k.MisspeltMeanDistance?
  }

  /** An accumulator that has counted nothing yet: every count 0, every
      statistic the sentinel, and no start/end or misspelt key. */
  predicate IsFreshAccumulator(m: FeatureMap) {
    && (forall k :: k in m <==> !IsIntervalOnly(k))
    && (forall k :: k in m && IsCount(k) ==> m[k] == 0.0)
    && (forall k :: k in m && !IsCount(k) ==> m[k] == Sentinel)
  }

  /** The keys `init_emdat_task_features` writes: every feature except
      the interval-only ones. */
  function TaskFeatureKeys(): set<Feature> {
    {
      NumPupilSizes, NumPupilVelocity,
      MeanPupilSize, StddevPupilSize, MaxPupilSize, MinPupilSize,
      MeanPupilVelocity, StddevPupilVelocity, MaxPupilVelocity, MinPupilVelocity,
      NumDistanceData,
      MeanDistance, StddevDistance, MaxDistance, MinDistance,
      NumFixDistances, NumAbsAngles, NumRelAngles,
      MeanPathDistance, SumPathDistance, StddevPathDistance, EyeMovementVelocity,
      SumAbsPathAngles, AbsPathAnglesRate, MeanAbsPathAngles, StddevAbsPathAngles,
      SumRelPathAngles, RelPathAnglesRate, MeanRelPathAngles, StddevRelPathAngles,
      NumFixations,
      FixationRate, MeanFixationDuration, StddevFixationDuration, SumFixationDuration
    }
  }

  /** The task accumulator as `init_emdat_task_features` leaves it: every
      count 0, every statistic the sentinel; the start/end features and the
      misspelt mean-distance key are absent. */
  function InitialTaskFeatures(): FeatureMap
  {
    map k | k in TaskFeatureKeys() :: if IsCount(k) then 0.0 else Sentinel
  }

  /** The task accumulator starts with every feature the task keeps:
      counts at 0 and every other statistic at the sentinel. */
  lemma InitialTaskFeaturesFresh()
    ensures forall k :: k in InitialTaskFeatures() <==> !IsIntervalOnly(k)
    ensures forall k :: k in InitialTaskFeatures() && IsCount(k) ==> InitialTaskFeatures()[k] == 0.0
    ensures forall k :: k in InitialTaskFeatures() && !IsCount(k) ==> InitialTaskFeatures()[k] == Sentinel
  {
  }

}
