/** The validity-gap scan of `calc_validity_gaps` and its total
    (`get_length_invalid`).

    The scan walks the whole validity array from index 0.  At an invalid
    sample `s` that starts a run of invalid samples it records, for every
    step it takes through the run, the pair (time[s], time[e]) where `e` is
    the index just reached.  The run therefore yields the pairs (s, s+1),
    (s, s+2), ..., (s, e) where `e` is the first valid index after `s` (or
    the last index), so the recorded gaps of one run overlap. */
module Gaps {
  import opened Features

  /** `s` is the first sample of a run of invalid samples. */
  predicate RunStart(v: seq<bool>, s: nat)
    requires s < |v|
  {
    !v[s] && (s == 0 || v[s - 1])
  }

  /** Where the scan stops stepping through the run of invalid samples at
      `k`: the first valid index after `k`, or the last index. */
  function RunEnd(v: seq<bool>, k: nat): (e: nat)
    requires k < |v|
    ensures k <= e < |v|
    ensures e == |v| - 1 || (e > k && v[e])
    ensures forall j :: k < j < e ==> !v[j]
    decreases |v| - k
  {
    if k + 1 >= |v| then k else if v[k + 1] then k + 1 else RunEnd(v, k + 1)
  }

  /** The index pairs recorded for a run starting at `s` and ending at `e`. */
  function RunPairs(s: nat, e: nat): (r: seq<(nat, nat)>)
    requires s <= e
    ensures |r| == e - s
    ensures forall i :: 0 <= i < |r| ==> r[i] == (s, s + 1 + i)
  {
    seq(e - s, i requires 0 <= i < e - s => (s, s + 1 + i))
  }

  /** The index pairs the scan has recorded once it has passed index `n`. */
  function PairsBefore(v: seq<bool>, n: nat): seq<(nat, nat)>
    requires n <= |v|
  {
    if n == 0 then []
    else PairsBefore(v, n - 1) + (if RunStart(v, n - 1) then RunPairs(n - 1, RunEnd(v, n - 1)) else [])
  }

  /** The index pairs of a whole scan. */
  function GapPairs(v: seq<bool>): seq<(nat, nat)>
  {
    PairsBefore(v, |v|)
  }

  predicate PairsWithin(pairs: seq<(nat, nat)>, n: nat)
  {
    forall i :: 0 <= i < |pairs| ==> pairs[i].0 < n && pairs[i].1 < n
  }

  /** The time stamps of the recorded index pairs. */
  function GapTimes(time: seq<real>, pairs: seq<(nat, nat)>): (r: seq<Gap>)
    requires PairsWithin(pairs, |time|)
    ensures |r| == |pairs|
  {
    if |pairs| == 0 then []
    else GapTimes(time, pairs[..|pairs| - 1]) + [Gap(time[pairs[|pairs| - 1].0], time[pairs[|pairs| - 1].1])]
  }

  lemma {:induction false} GapTimesAt(time: seq<real>, pairs: seq<(nat, nat)>)
    requires PairsWithin(pairs, |time|)
    ensures forall i :: 0 <= i < |pairs| ==> GapTimes(time, pairs)[i] == Gap(time[pairs[i].0], time[pairs[i].1])
  {
    if |pairs| > 0 {
      GapTimesAt(time, pairs[..|pairs| - 1]);
    }
  }

  /** Sum of (end - start) over the recorded gaps. */
  function TotalGapLength(gaps: seq<Gap>): real
  {
    if |gaps| == 0 then 0.0 else TotalGapLength(gaps[..|gaps| - 1]) + (gaps[|gaps| - 1].end - gaps[|gaps| - 1].start)
  }

  // ---------------------------------------------------------------------
  // Facts about runs and the recorded pairs
  // ---------------------------------------------------------------------

  /** A stop found by hand is the stop `RunEnd` computes. */
  lemma {:induction false} RunEndAt(v: seq<bool>, s: nat, e: nat)
    requires s <= e < |v|
    requires forall j :: s < j < e ==> !v[j]
    requires e == |v| - 1 || (e > s && v[e])
    ensures RunEnd(v, s) == e
    decreases e - s
  {
    if s + 1 >= |v| {
    } else if v[s + 1] {
    } else {
      RunEndAt(v, s + 1, e);
    }
  }

  /** No pair is recorded while the scan passes indices that start no run. */
  lemma {:induction false} PairsBeforeNoStarts(v: seq<bool>, a: nat, b: nat)
    requires a <= b <= |v|
    requires forall j :: a <= j < b ==> !RunStart(v, j)
    ensures PairsBefore(v, b) == PairsBefore(v, a)
    decreases b - a
  {
    if a < b {
      PairsBeforeNoStarts(v, a, b - 1);
    }
  }

  /** Passing a whole run records exactly the run's pairs. */
  lemma PairsBeforeRun(v: seq<bool>, s: nat)
    requires s < |v| && RunStart(v, s)
    ensures PairsBefore(v, RunEnd(v, s) + 1) == PairsBefore(v, s) + RunPairs(s, RunEnd(v, s))
  {
    var e := RunEnd(v, s);
    forall j | s + 1 <= j < e + 1
      ensures !RunStart(v, j)
    {
      assert !v[j - 1];
    }
    PairsBeforeNoStarts(v, s + 1, e + 1);
  }

  /** Soundness of the recorded pairs: every pair (s, e) has s < e, all
      samples from s up to e (exclusive) are invalid, and s starts its run. */
  predicate SoundPair(v: seq<bool>, pr: (nat, nat))
  {
    && pr.0 < pr.1 < |v|
    && RunStart(v, pr.0)
    && (forall j :: pr.0 <= j < pr.1 ==> !v[j])
  }

  lemma {:induction false} PairsBeforeSound(v: seq<bool>, n: nat)
    requires n <= |v|
    ensures forall i :: 0 <= i < |PairsBefore(v, n)| ==> SoundPair(v, PairsBefore(v, n)[i])
  {
    if n > 0 {
      PairsBeforeSound(v, n - 1);
      var s := n - 1;
      if RunStart(v, s) {
        var e := RunEnd(v, s);
        var run := RunPairs(s, e);
        forall i | 0 <= i < |run|
          ensures SoundPair(v, run[i])
        {
          assert run[i] == (s, s + 1 + i);
          forall j | s <= j < s + 1 + i
            ensures !v[j]
          {
            if j > s { assert s < j < e; }
          }
        }
      }
    }
  }

  /** Every pair of a whole scan is sound. */
  lemma GapPairsSound(v: seq<bool>)
    ensures forall i :: 0 <= i < |GapPairs(v)| ==> SoundPair(v, GapPairs(v)[i])
  {
    PairsBeforeSound(v, |v|);
  }

  /** The recorded pairs index into any series at least as long as the
      validity flags. */
  lemma GapPairsWithin(v: seq<bool>, n: nat)
    requires |v| <= n
    ensures PairsWithin(GapPairs(v), n)
  {
    GapPairsSound(v);
    forall i | 0 <= i < |GapPairs(v)|
      ensures GapPairs(v)[i].0 < n && GapPairs(v)[i].1 < n
    {
      assert SoundPair(v, GapPairs(v)[i]);
    }
  }

  /** Completeness: for every run start `s` and every index `e` the scan
      steps to in that run, the pair (s, e) is recorded. */
  lemma {:induction false} PairsBeforeComplete(v: seq<bool>, n: nat, s: nat, e: nat)
    requires s < n <= |v|
    requires RunStart(v, s) && s < e <= RunEnd(v, s)
    ensures (s, e) in PairsBefore(v, n)
  {
    if s == n - 1 {
      var run := RunPairs(s, RunEnd(v, s));
      assert run[e - s - 1] == (s, e);
    } else {
      PairsBeforeComplete(v, n - 1, s, e);
    }
  }

  lemma GapPairsComplete(v: seq<bool>, s: nat, e: nat)
    requires s < |v| && RunStart(v, s) && s < e <= RunEnd(v, s)
    ensures (s, e) in GapPairs(v)
  {
    PairsBeforeComplete(v, |v|, s, e);
  }

  /** A lone invalid sample at the end (after a valid one, or alone) is
      never mentioned by a recorded pair. */
  lemma LoneFinalInvalidRecordsNothing(v: seq<bool>)
    requires |v| > 0 && !v[|v| - 1] && (|v| == 1 || v[|v| - 2])
    ensures forall i :: 0 <= i < |GapPairs(v)| ==> GapPairs(v)[i].0 != |v| - 1 && GapPairs(v)[i].1 != |v| - 1
  {
    GapPairsSound(v);
  }

  /** With non-decreasing time stamps every recorded gap, and so their
      total, is non-negative. */
  lemma {:induction false} TotalGapLengthNonNegative(gaps: seq<Gap>)
    requires forall i :: 0 <= i < |gaps| ==> gaps[i].start <= gaps[i].end
    ensures TotalGapLength(gaps) >= 0.0
  {
    if |gaps| > 0 {
      TotalGapLengthNonNegative(gaps[..|gaps| - 1]);
    }
  }

  predicate NonDecreasing(time: seq<real>)
  {
    forall i, j :: 0 <= i <= j < |time| ==> time[i] <= time[j]
  }

  lemma GapLengthNonNegative(time: seq<real>, v: seq<bool>)
    requires |v| <= |time| && NonDecreasing(time)
    ensures PairsWithin(GapPairs(v), |time|)
    ensures TotalGapLength(GapTimes(time, GapPairs(v))) >= 0.0
  {
    GapPairsSound(v);
    GapTimesAt(time, GapPairs(v));
    TotalGapLengthNonNegative(GapTimes(time, GapPairs(v)));
  }

  /** The recorded gaps of one run overlap: two invalid samples followed by
      a valid one record the gaps (t0, t1) and (t0, t2), whose lengths add
      up to 3 for an invalid span of 2. */
  lemma OverlappingGaps()
    ensures GapPairs([false, false, true]) == [(0, 1), (0, 2)]
    ensures GapTimes([0.0, 1.0, 2.0], GapPairs([false, false, true])) == [Gap(0.0, 1.0), Gap(0.0, 2.0)]
    ensures TotalGapLength(GapTimes([0.0, 1.0, 2.0], GapPairs([false, false, true]))) == 3.0
  {
    var v := [false, false, true];
    assert RunStart(v, 0) && !RunStart(v, 1) && !RunStart(v, 2);
    assert RunEnd(v, 1) == 2;
    assert RunEnd(v, 0) == 2;
    assert RunPairs(0, 2) == [(0, 1), (0, 2)];
    assert PairsBefore(v, 1) == [(0, 1), (0, 2)];
    assert PairsBefore(v, 2) == PairsBefore(v, 1);
    var g := [Gap(0.0, 1.0), Gap(0.0, 2.0)];
    assert GapTimes([0.0, 1.0, 2.0], [(0, 1), (0, 2)]) == g;
    assert g[..1] == [Gap(0.0, 1.0)] && g[..1][..0] == [];
  }

  lemma RunPairsAppend(s: nat, e: nat)
    requires s < e
    ensures RunPairs(s, e) == RunPairs(s, e - 1) + [(s, e)]
  {
    assert RunPairs(s, e)[..e - 1 - s] == RunPairs(s, e - 1);
  }

  lemma GapTimesAppend(time: seq<real>, pairs: seq<(nat, nat)>, pr: (nat, nat))
    requires PairsWithin(pairs, |time|) && pr.0 < |time| && pr.1 < |time|
    ensures PairsWithin(pairs + [pr], |time|)
    ensures GapTimes(time, pairs + [pr]) == GapTimes(time, pairs) + [Gap(time[pr.0], time[pr.1])]
  {
    assert (pairs + [pr])[..|pairs|] == pairs;
  }

  // ---------------------------------------------------------------------
  // The scan
  // ---------------------------------------------------------------------

  /** The innermost loop of the scan (lines 594-597): from the run start
      `s` it steps to the run's end, appending (time[s], time[e]) for every
      index `e` reached. */
  method StepThroughRun(v: seq<bool>, time: seq<real>, s: nat, gaps0: seq<Gap>, ghost pairs0: seq<(nat, nat)>)
    returns (e: nat, gaps: seq<Gap>)
    requires |v| <= |time| && s < |v| && !v[s]
    requires PairsWithin(pairs0, |time|) && gaps0 == GapTimes(time, pairs0)
    ensures e == RunEnd(v, s)
    ensures PairsWithin(pairs0 + RunPairs(s, e), |time|)
    ensures gaps == GapTimes(time, pairs0 + RunPairs(s, e))
  {
    var datalen := |v|;
    e := s;
    var d := v[e];
    gaps := gaps0;
    ghost var pairs := pairs0;
    var gapStart := time[e];
    while !d && e < datalen - 1
      invariant s <= e < datalen
      invariant d == v[e]
      invariant forall j :: s < j < e ==> !v[j]
      invariant pairs == pairs0 + RunPairs(s, e)
      invariant PairsWithin(pairs, |time|)
      invariant gaps == GapTimes(time, pairs)
      decreases datalen - e
    {
      e := e + 1;
      d := v[e];
      RunPairsAppend(s, e);
      GapTimesAppend(time, pairs, (s, e));
      pairs := pairs + [(s, e)];
      gaps := gaps + [Gap(gapStart, time[e])];
    }
    RunEndAt(v, s, e);
  }

  /** The first inner loop of the scan (lines 589-591): from `first` it
      steps over valid samples, stopping at an invalid one or at the last. */
  method SkipValid(v: seq<bool>, first: nat) returns (k: nat, d: bool)
    requires first < |v|
    ensures first <= k < |v| && d == v[k]
    ensures d ==> k == |v| - 1
    ensures forall j :: first <= j < k ==> v[j]
  {
    k := first;
    d := v[k];
    while d && k < |v| - 1
      invariant first <= k < |v|
      invariant d == v[k]
      invariant forall j :: first <= j < k ==> v[j]
      decreases |v| - k
    {
      k := k + 1;
      d := v[k];
    }
  }

  /** One run of invalid samples, from its start `s` (lines 592-598): the
      scan steps through it, recording its pairs, and goes on after it. */
  method RecordRun(v: seq<bool>, time: seq<real>, s: nat, gaps0: seq<Gap>) returns (next: nat, gaps: seq<Gap>)
    requires |v| <= |time| && s < |v| && RunStart(v, s)
    requires PairsWithin(PairsBefore(v, s), |time|) && gaps0 == GapTimes(time, PairsBefore(v, s))
    ensures s < next <= |v| && (next == |v| || v[next - 1])
    ensures PairsWithin(PairsBefore(v, next), |time|) && gaps == GapTimes(time, PairsBefore(v, next))
  {
    PairsBeforeRun(v, s);
    var e;
    e, gaps := StepThroughRun(v, time, s, gaps0, PairsBefore(v, s));
    next := e + 1;
  }

  /** The nested-while scan of `calc_validity_gaps` (lines 584-598): the
      gaps it records are the time stamps of `GapPairs(validity)`. */
  method ScanValidityGaps(validity: seq<bool>, time: seq<real>) returns (gaps: seq<Gap>)
    requires |validity| <= |time|
    ensures PairsWithin(GapPairs(validity), |time|)
    ensures gaps == GapTimes(time, GapPairs(validity))
  {
    var v := validity;
    gaps := [];
    var dindex := 0;
    var datalen := |v|;
    while dindex < datalen
      invariant dindex <= datalen
      invariant dindex == 0 || dindex == datalen || v[dindex - 1]
      invariant PairsWithin(PairsBefore(v, dindex), |time|)
      invariant gaps == GapTimes(time, PairsBefore(v, dindex))
      decreases datalen - dindex
    {
      ghost var first := dindex;
      var d;
      dindex, d := SkipValid(v, dindex);
      PairsBeforeNoStarts(v, first, dindex);
      if !d {
        dindex, gaps := RecordRun(v, time, dindex, gaps);
      } else {
        PairsBeforeNoStarts(v, dindex, dindex + 1);
        dindex := dindex + 1;
      }
    }
  }
}
