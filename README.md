# EMDAT eye-tracking features, modelled in Dafny

This project models `EMDATComponent`, the periodic component of the
eye-tracking backend that computes EMDAT features (backend/emdat_component.py).
On every cycle, `run` does the following:

- It reads the bounds of the current interval from the tracker's time stamps.
- It rescans the validity series for gaps and sums how long they are.
- It resets the task accumulator.
- Each enabled extractor reads the samples recorded since its own cursor
  and moves that cursor to the end of its series:
  - pupil size and pupil velocity;
  - head distance;
  - fixations, with the saccade path and its angles.
- It merges the interval's features into the task accumulator, the global
  accumulator or both, depending on the keep flags.

Modules:

- `Features` (features.dfy) holds the shared vocabulary:
  - the feature keys, one constructor each, including the misspelt key
    'mean_distance' that the distance merge writes;
  - feature dictionaries, written as `map<Feature, real>`;
  - the `-1` sentinel;
  - the `Result` type that stands for a raised exception: `KeyError`,
    `ZeroDivisionError`, an unbound local variable, an empty time series, or
    unset gaps;
  - the configuration flags;
  - the initial task accumulator of `init_emdat_task_features`.
- `Stats` (stats.dfy) gives the arithmetic of the `utils` helpers that the
  source imports. The mean and the sample standard deviation are defined on
  sequences of reals. It also defines the weighted mean and the pooled
  deviation that the merge helpers compute. The main result here is that
  merging summaries is exact: merging the summaries of two data sets gives
  the summary of the two sets together.
- `Merge` (merge.dfy) models the merge helpers (`sumfeat`,
  `weightedmeanfeat`, `aggregatestddevfeat`, `minfeat`, `maxfeat`), the four
  `merge_*` methods and `merge_features`.
  - Each merge is a chain of writes into the accumulator. An exception stops
    the chain and keeps the writes made before it, as Python does.
- `Path` (path.dfy) models the saccade helpers `calc_distances`,
  `calc_abs_angles` and `calc_rel_angles`. Each is a loop method proved equal
  to a specification function.
- `Gaps` (gaps.dfy) models the nested-loop scan of `calc_validity_gaps` and
  characterises exactly which gap pairs it records.
- `Extract` (extract.dfy) gives the feature dictionaries that the three
  extractors write, and every way `calc_fix_ang_path_features` can end.
- `Emdat` (emdat.dfy) contains the classes:
  - `GazeTracker`, the recorded series and the global accumulator;
  - `EmdatComponent`, the cursors, the interval bounds, the gaps, and the
    interval and task dictionaries.

  Its methods update these fields in place. `Run` is proved to behave like
  one cycle of the value-level function `CycleOutcome`, and lemmas relate
  successive cycles.

  `Run` computes the cycle through the value-level methods `Cycle`,
  `BeginCycle`, `ReadCursors`, `ExtractCycle` and `ExtractAndFold`, then
  assigns the component's fields. The class methods `CalcPupilFeatures`,
  `CalcDistanceFeatures`, `CalcFixAngPathFeatures`, `CalcValidityGaps`,
  `GetLengthInvalid` and `InitEmdatTaskFeatures` model those methods when
  they are called on their own. Both routes are proved against the same
  specification functions (`PupilFeatureMap`, `DistanceFeatureMap`,
  `FixAngPathOutcome`, `ScannedGaps`, `LengthInvalid`, `InitialTaskFeatures`).
- `Transitions` (transitions.dfy) models `generate_transition_features`.

Some things the model does not fix; they are parameters:

- `MathOps` carries the square root, `acos` and the saccade direction that
  the geometry helper `geometry.vector_difference` reports. The square root is pinned down only by `IsSqrt`: it
  returns the non-negative root of a non-negative number.
- A polygon test that says whether a fixation lies in an AOI.

Where the source's documentation and its code disagree, the model follows the
code:

- `calc_validity_gaps` rescans the validity series from index 0 on every call,
  not from a cursor.
- It has no `MAX_SEG_TIMEGAP` filter.
- For every invalid sample after the first in a run, it records a gap from
  the first invalid sample of that run. So gaps overlap, and
  `get_length_invalid` counts the same time more than once (`Gaps.OverlappingGaps`).
- `merge_distance_features` pools the deviation around the stale
  accumulator mean. It also stores the new mean under 'mean_distance' and
  leaves 'meandistance' unchanged (`Merge.MergeDistanceStaleCentre`).
- `minfeat` ignores its `nonevalue` argument.
- The sums in `merge_fixation_features` add the `-1` sentinel of a freshly
  reset accumulator.
- `run` resets the task accumulator on every cycle, so the task features hold
  only the current interval.

## Model

| member | source | states |
|---|---|---|
| Emdat.EmdatComponent.constructor | backend/emdat_component.py:11-17 | all four cursors start at 0 and the gaps are unset |
| Emdat.EmdatComponent.Run | backend/emdat_component.py:24-63 | a cycle leaves the attributes, the global accumulator and the exception exactly as `CycleOutcome` gives them; the tracker's series are only read |
| Emdat.Cycle | backend/emdat_component.py:24-63 | the value-level cycle (begin, read cursors, extract, fold) computes `CycleOutcome` |
| Emdat.CycleBegins | backend/emdat_component.py:28-34 | an empty time series raises before anything changes; otherwise the interval is set to the first and last time stamps and the gaps are rescanned; if the gaps are still unset the cycle raises with cursors and global accumulator untouched, otherwise the invalid length is the total length of the gaps |
| Emdat.CycleRecordsGaps | backend/emdat_component.py:584-598 | after a fixation has been seen, every recorded gap runs between the time stamps of a sound pair of indices whose samples in between are all invalid |
| Emdat.NextCycleReadsAppended | backend/emdat_component.py:151-162 | when samples are only appended, the next cycle reads exactly the valid samples appended since this one, and the two cycles together read what one cycle over the longer recording would: nothing is read twice or skipped |
| Emdat.SecondCycleReadsNothing | backend/emdat_component.py:151-162 | over a recording that does not grow, a second cycle reads no sample |
| Emdat.CycleFrame | backend/emdat_component.py:54-60 | the global accumulator changes only under keys a merge writes, and not at all unless it is kept; the task accumulator is the freshly reset one unless it is kept |
| Emdat.CycleWithoutExtractors | backend/emdat_component.py:36-60 | with every extractor off, the cursors stay, the interval stays empty, the global accumulator stays and nothing is raised |
| Emdat.CycleWithoutNewFixations | backend/emdat_component.py:260-281 | with the fixation extractor on and no new fixation, the cycle writes a zero fixation count, raises on the unbound `distances` and merges nothing |
| Emdat.CycleCountsFixations | backend/emdat_component.py:263-279 | a cycle that raises nothing has read new fixations over a non-zero valid length, and records their number, their summed duration and their rate |
| Emdat.BeginCycle | backend/emdat_component.py:28-34 | sets the interval bounds, rescans the gaps, resets the interval and the task accumulator and takes the invalid length (`Begun`); raises exactly when the gaps are unset |
| Emdat.ReadCursors | backend/emdat_component.py:151-262 | the enabled extractors' cursor loops read the samples `Read` gives and leave the cursors where `Moved` puts them |
| Emdat.ExtractCycle | backend/emdat_component.py:36-60 | the cursor loops, the extractors and the merges of one cycle give what `Extracted` states |
| Emdat.ExtractAndFold | backend/emdat_component.py:36-60 | the enabled extractors write their features into the interval, and the keep flags fold it into the accumulators (`IntervalAndFold`) |
| Emdat.ValidityGaps | backend/emdat_component.py:570-598 | with no fixation yet, returns the span of the time stamps (an empty series raises) and keeps the gaps; otherwise the gaps become those of the whole validity series (`ScannedGaps`) |
| Emdat.Fold | backend/emdat_component.py:54-60 | the keep flags fold the interval into the task accumulator, then into the global one, stopping at the first merge that raises (`FoldOutcome`) |
| Emdat.FoldFrame | backend/emdat_component.py:54-60 | an accumulator that is not kept is returned unchanged, and a kept one changes only under the merge keys |
| Emdat.CollectValid | backend/emdat_component.py:151-162 | the cursor loop returns exactly the valid samples past the cursor, in order, and moves the cursor to the end of the series (never backwards) |
| Emdat.ReadsCompose | backend/emdat_component.py:151-162 | reading up to a point and then reading on from where the cursor stopped gives the same samples as one read |
| Emdat.EmdatComponent.CalcPupilFeatures | backend/emdat_component.py:126-199 | both pupil cursors move to the end of their series and the interval gets the pupil features of the valid sizes and velocities read; nothing else changes |
| Emdat.EmdatComponent.CalcDistanceFeatures | backend/emdat_component.py:201-242 | the distance cursor moves to the end and the interval gets the distance features of the valid head distances read; nothing else changes |
| Emdat.EmdatComponent.CalcFixAngPathFeatures | backend/emdat_component.py:244-313 | the fixation cursor moves to the end of the fixation list, and the interval and the exception are those `FixAngPathOutcome` gives for the new fixations |
| Emdat.RateAndPath | backend/emdat_component.py:267-313 | once the duration statistics are written, the rate, the path helpers, the count and the path features end as `FixAngPathOutcome` says |
| Emdat.PathFeatures | backend/emdat_component.py:269-313 | the three path helpers give the path features of the saccades, or the exception the relative angles raise |
| Emdat.FixAngPath | backend/emdat_component.py:263-313 | the extractor's loop-based body computes `FixAngPathOutcome` |
| Emdat.EmdatComponent.CalcValidityGaps | backend/emdat_component.py:570-598 | with no fixation yet, it returns the time span and leaves the gaps alone (an empty series raises); otherwise the gaps become those of the whole validity series |
| Emdat.EmdatComponent.GetLengthInvalid | backend/emdat_component.py:807-816 | unset gaps raise; otherwise the result is the summed length of the gaps |
| Emdat.EmdatComponent.InitEmdatTaskFeatures | backend/emdat_component.py:66-111 | the task accumulator becomes the initial one, which is a fresh accumulator |
| Features.InitialTaskFeaturesFresh | backend/emdat_component.py:66-111 | the initial task accumulator holds every key except the interval-only ones, with the counts at 0 and every other feature at -1 |
| Extract.PupilFeatureMapValues | backend/emdat_component.py:164-199 | the pupil features summarise the valid sizes (count, mean, sample deviation, max, min) and the valid velocities; start and end are the first and last size; with no size every statistic is -1, the size count is 0 and the velocity count is the number of valid velocities |
| Extract.PupilSizeBounds | backend/emdat_component.py:164-199 | every valid size, the start size and the end size lie between the minimum and the maximum |
| Extract.DistanceFeatureMapValues | backend/emdat_component.py:226-242 | the distance features summarise the valid head distances; start and end are the first and last distance, -1 when none |
| Extract.DistanceBounds | backend/emdat_component.py:226-242 | every valid distance, the start and the end lie between the minimum and the maximum |
| Extract.NoFixationFeatureMapValues | backend/emdat_component.py:272-278 | without a new fixation exactly the fixation keys are written: the count 0, every other one -1 |
| Extract.NoFixationRaises | backend/emdat_component.py:272-281 | with no new fixation the count is 0, the mean, deviation and sum of durations and the rate are -1, and reading the unbound `distances` raises |
| Extract.FixationCounts | backend/emdat_component.py:263-279 | when the extractor raises nothing there were fixations and a non-zero valid length; the count, summed duration and rate are written |
| Extract.PathCounts | backend/emdat_component.py:281-299 | with two or more fixations, n−1 path distances, n−1 absolute angles and n−2 relative angles are counted; the mean path distance is the mean of the saccade lengths and the velocity is their sum over the valid length |
| Extract.OutcomeOfZeroLength | backend/emdat_component.py:263-268 | with a zero valid length the duration statistics are written, then the rate division raises |
| Extract.OutcomeOfFailedTurn | backend/emdat_component.py:268-271 | when the norm of a relative-angle arm computes to 0, `ZeroDivisionError` is raised after the rate is written, and no path feature is written |
| Extract.OneFixationLeavesAngleCountsUnset | backend/emdat_component.py:281-313 | with one new fixation and a non-zero valid length nothing is raised, 'numfixdistances' is written, and 'numabsangles' and 'numrelangles' stay unwritten |
| Extract.OneFixationPathMergeRaises | backend/emdat_component.py:281-313 | a single fixation leaves the angle counts unset, so a later path merge raises `KeyError` on 'numabsangles' |
| Extract.PupilIntervalMergesExactly | backend/emdat_component.py:396-448 | when both the interval and the accumulator's earlier samples are non-empty, merging a pupil interval into an accumulator that summarises those samples gives the summary of all samples (`Merge.MergeStatsMomentsExact` covers an empty side) |
| Extract.DistanceIntervalMergeCounts | backend/emdat_component.py:450-479 | the distance merge sums the counts and combines max and min exactly |
| Path.CalcDistances | backend/emdat_component.py:481-499 | one entry per saccade, each the Euclidean distance between consecutive fixations (`PathDistances`) |
| Path.CalcAbsAngles | backend/emdat_component.py:501-524 | one entry per saccade, each the non-negative angle of that saccade (`PathAbsAngles`) |
| Path.CalcRelAngles | backend/emdat_component.py:526-568 | one turn angle per inner fixation, or `ZeroDivisionError` from the first turn whose arm norm computes to 0 (`PathRelAngles`) |
| Path.TurnAnglesUpToOk | backend/emdat_component.py:526-568 | the relative angles succeed if and only if every turn angle up to k succeeds |
| Path.TurnAngleOfRepeatedFixation | backend/emdat_component.py:526-568 | a turn at a fixation that coincides with its predecessor or its successor (a zero-length arm) has angle 0 |
| Path.ShortPathHasNoTurns | backend/emdat_component.py:526-568 | fewer than three fixations give no relative angle |
| Path.PathDistancesReversed | backend/emdat_component.py:481-499 | reversing the fixations reverses their saccade lengths |
| Path.SaccadeLengthOfStill | backend/emdat_component.py:481-499 | a saccade length is non-negative, and 0 between fixations at the same point |
| Gaps.ScanValidityGaps | backend/emdat_component.py:584-598 | the nested scan yields exactly the gaps of `GapPairs`, in order |
| Gaps.SkipValid | backend/emdat_component.py:589-591 | steps over valid samples to the first invalid one, or to the last sample when all are valid |
| Gaps.StepThroughRun | backend/emdat_component.py:594-597 | steps from a run's start to its end (`RunEnd`), appending a gap from the start to every index reached |
| Gaps.RecordRun | backend/emdat_component.py:592-598 | one run of invalid samples adds exactly the gaps `PairsBefore` gives up to the sample after the run |
| Gaps.GapPairsSound | backend/emdat_component.py:584-598 | every recorded pair (s, e) starts a run of invalid samples at s, has e > s, and has only invalid samples strictly between |
| Gaps.GapPairsComplete | backend/emdat_component.py:584-598 | every such pair whose end is valid or last is recorded |
| Gaps.LoneFinalInvalidRecordsNothing | backend/emdat_component.py:584-598 | no gap starts or ends at the last sample when it is the only invalid one of its run |
| Gaps.OverlappingGaps | backend/emdat_component.py:584-598 | validity [F, F, T] yields the overlapping gaps (0,1) and (0,2), totalling 3 over a span of 2 |
| Gaps.GapLengthNonNegative | backend/emdat_component.py:807-816 | with non-decreasing time stamps the invalid length is non-negative |
| Emdat.LengthInvalid | backend/emdat_component.py:807-816 | unset gaps raise; otherwise the result is the summed length |
| Merge.SumFeat | backend/emdat_component.py:885-900 | succeeds if and only if both dictionaries hold the key; the result is their sum; otherwise a `KeyError` on that key |
| Merge.SumFeatSymmetric | backend/emdat_component.py:885-900 | summing is symmetric in the two dictionaries |
| Merge.WeightedMeanFeat | backend/emdat_component.py:819-844 | succeeds if and only if both counts and both means are present; the result times the total count is the weighted sum, 0 when the total count is 0 |
| Merge.WeightedMeanFeatSymmetric | backend/emdat_component.py:819-844 | with both counts and both means present, the weighted mean does not depend on which dictionary is the part and which the accumulator |
| Merge.WeightedMeanFeatOfEmptyAccumulator | backend/emdat_component.py:819-844 | against an accumulator with a count of 0 the mean is the part's own |
| Stats.WeightedMeanBetween | backend/emdat_component.py:819-844 | with non-negative counts and a positive total the weighted mean lies between the two means |
| Stats.MeanConcat | backend/emdat_component.py:819-844 | the weighted mean of two means is the mean of the concatenated data |
| Merge.AggregateStdDevFeat | backend/emdat_component.py:846-882 | fails only on a missing key; the count is always read, the mean and deviation only for a positive count |
| Merge.AggregateStdDevFeatSquared | backend/emdat_component.py:846-882 | the pooled deviation is non-negative, 0 for at most one value, and otherwise its square is the pooled sum of squares over count − 1 |
| Merge.AggregateStdDevFeatOfEmptyAccumulator | backend/emdat_component.py:846-882 | pooled against an empty accumulator around its own mean, a part keeps its deviation |
| Stats.PooledStdDevExact | backend/emdat_component.py:846-882 | the deviation pooled around the combined mean is the sample deviation of the concatenated data |
| Merge.MinFeat | backend/emdat_component.py:902-916 | the result is one of the two values and at most both; a missing key raises |
| Merge.MinFeatIgnoresNoneValue | backend/emdat_component.py:902-916 | the result does not depend on `nonevalue` |
| Merge.MaxFeat | backend/emdat_component.py:918-930 | the result is one of the two values and at least both; a missing key raises |
| Merge.MergeStats | backend/emdat_component.py:413-448 | one pupil group merge changes only that group's keys and, with its keys present, leaves them as `StatsMerged` states |
| Merge.MergeStatsMomentsExact | backend/emdat_component.py:413-434 | the merged count, mean and deviation are those of the concatenated data even when one side is empty |
| Merge.MergePupil | backend/emdat_component.py:396-448 | changes only the pupil keys, and can only raise `KeyError` |
| Merge.MergePupilMerges | backend/emdat_component.py:396-448 | with the keys present, both groups merge: summed count, weighted mean, pooled deviation, larger max, smaller min; sentinels for an empty total |
| Merge.MergeStatsExact | backend/emdat_component.py:396-448 | merging the summaries of two non-empty data sets gives the summary of their concatenation |
| Merge.MergePupilIntoFreshMinimum | backend/emdat_component.py:396-448 | merging into a freshly reset accumulator leaves a minimum of at most -1, because the sentinel takes part in the min |
| Merge.MergeDistance | backend/emdat_component.py:450-479 | changes only the distance keys and 'mean_distance', and can only raise `KeyError` |
| Merge.MergeDistanceMerges | backend/emdat_component.py:450-479 | the count is summed, the weighted mean goes to 'mean_distance', 'meandistance' is left alone, and the deviation is pooled around the old accumulator mean |
| Merge.MergeDistanceStaleCentre | backend/emdat_component.py:464-469 | merging distances [2, 2] into [0, 0] gives a squared deviation of 8/3 where the data have 4/3, and 'meandistance' stays 0 where the mean is 1 |
| Merge.MergePathAngle | backend/emdat_component.py:340-394 | changes only the path keys, and can only raise `KeyError` or a division by zero |
| Merge.MergePathAngleMerges | backend/emdat_component.py:340-394 | with more than one path distance, distances, absolute angles and relative angles are each merged with their rate recomputed from the new sum; otherwise every statistic is -1 and the counts are as the accumulator had them |
| Merge.PathAngleClearsStatistics | backend/emdat_component.py:358-394 | with at most one path distance only the statistics are set to -1 |
| Merge.MergePathAngleZeroLength | backend/emdat_component.py:358-363 | a zero valid length raises after the summed path distance and its deviation are written |
| Merge.MergeSeriesExact | backend/emdat_component.py:340-394 | merging the summaries (count, mean, deviation, sum) of two non-empty series gives the summary of their concatenation |
| Merge.MergeFixation | backend/emdat_component.py:315-338 | changes only the fixation keys, and can only raise `KeyError` or a division by zero |
| Merge.MergeFixationMerges | backend/emdat_component.py:315-338 | the count is summed; for a positive count the durations are merged and the rate is count over valid length; otherwise the statistics and the rate are -1 |
| Merge.MergeFixationZeroLength | backend/emdat_component.py:324-325 | a zero valid length raises before anything is written |
| Merge.MergeFixationIntoFreshSum | backend/emdat_component.py:315-338 | merging into a freshly reset accumulator leaves a summed duration one less than the interval's, because the -1 sentinel is added |
| Merge.MergeFeatures | backend/emdat_component.py:113-124 | only merge keys change; with every group disabled nothing changes |
| Transitions.GenerateTransitionFeatures | backend/emdat_component.py:779-805 | per active AOI, the count of fixations whose predecessor lies in that AOI, its proportion of the total (0 when the total is 0, always within [0, 1]), and the total |
| Transitions.ZeroCounts | backend/emdat_component.py:781-783 | every active AOI, and nothing else, starts with a count of 0 |
| Transitions.Proportions | backend/emdat_component.py:797-804 | each active AOI gets its count over the total, 0 when the total is 0, always within [0, 1] |
| Transitions.CountFrom | backend/emdat_component.py:788-796 | the predecessor fixation adds to each active AOI its hits and to the total the number of active AOIs holding it |
| Transitions.NumTransFromAtMostTotal | backend/emdat_component.py:786-796 | no AOI has more incoming transitions than the total |
| Transitions.FirstFixationAddsNothing | backend/emdat_component.py:786-787 | the first fixation, which has no predecessor, adds no transition |
| Transitions.CountsAddUp | backend/emdat_component.py:786-805 | with distinct AOIs the per-AOI counts add up to the total, so the proportions share out the transitions |

## Left out

- The AOI feature extraction (lines 600-757) and the event feature extraction (lines 759-777) are left out. They depend on AOI and event objects and on helpers that neither backend/emdat_component.py nor the other source files define. The transition features are modelled with the polygon test as the parameter `inside`.
- `notify_app_state_controller`, the tornado coroutine machinery, the timing with `time.time` and the `print` calls are left out. They only schedule work or write logs.
- `DetectionComponent`, the tornado web server, the sqlite storage and the eye tracker are not part of this model. The tracker appears only as the `GazeTracker` class with the series `run` reads.
- The `utils` module and the `geometry` module are not part of this model:
  - `mean` and `stddev` take their textbook meaning: the mean of an empty list is 0, and the sample deviation is 0 for at most one value.
  - The square root, `acos` and the direction from `geometry.vector_difference` are the parameters in `MathOps`.
- Floating point is modelled as exact reals, so there is no rounding, NaN or infinity. In particular `aggregatestddevfeat` is exact. Its `math.isnan(sd)` resets (lines 864 and 873) are not modelled, because a real deviation is never NaN. Its `math.sqrt` would raise `ValueError` on a negative argument, but this cannot arise: with every count 0 or at least 1, the pooled numerator is a sum of non-negative terms (`Merge.AggregateStdDevFeatSquared`).
- The `params` constants are the fields of `Params`.
- Path.CalcDistances, Path.CalcAbsAngles, Path.CalcRelAngles: these require at least one fixation. The source calls them only after its own empty check.
- Gaps.ScanValidityGaps, Emdat.ValidityGaps, Emdat.BeginCycle, Emdat.CycleOutcome, Emdat.Cycle, Emdat.EmdatComponent.CalcValidityGaps, Emdat.EmdatComponent.Run and the cycle lemmas of `Emdat`: these require no more validity flags than time stamps. The tracker records them in parallel, and the source would raise `IndexError` otherwise.
- Transitions.GenerateTransitionFeatures: this requires every fixation index to be at most the number of fixations. The source would raise `IndexError` otherwise.
- Transitions.GenerateTransitionFeatures: an AOI is identified by its `aid`, so two AOIs with the same `aid` but different polygons are not distinguished.
- Transitions.GenerateTransitionFeatures: the counts and proportions are returned as maps keyed by `aid`. As written, the method writes them into `self.features` under 'numtransfrom_<aid>' and 'proptransfrom_<aid>'. But neither `EMDATComponent.__init__` (lines 11-17) nor `DetectionComponent` ever assigns `self.features`, so with at least one active AOI the method raises `AttributeError` at line 783. The model gives the counts the method would write if that dictionary existed. With no active AOI it only sets `total_trans_from`, which the model returns as the total.
