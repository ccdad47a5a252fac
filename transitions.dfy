/** `generate_transition_features`: for the fixations of one AOI, how many
    of them follow a fixation that lies inside each of the active AOIs, and
    what share of all such incoming transitions each active AOI has.
    Whether a fixation lies inside an AOI (the unseen
    `_fixation_inside_aoi` test against the AOI's polygons) is the
    parameter `inside`. */
module Transitions {
  import opened Features

  /** The identifier `aid` of an AOI. */
  type AoiId = string

  /** The fixation indices are usable: the fixation before each of them
      exists. */
  predicate IndicesWithin(indices: seq<nat>, n: nat)
  {
    forall k :: 0 <= k < |indices| ==> indices[k] <= n
  }

  /** How many entries of the active AOIs `aois` are `aid` and hold `f`
      (an AOI listed twice is tested, and counted, twice). */
  function Hits(f: Fixation, aois: seq<AoiId>, aid: AoiId, inside: (Fixation, AoiId) -> bool): nat
  {
    if |aois| == 0 then 0
    else Hits(f, aois[..|aois| - 1], aid, inside) + (if aois[|aois| - 1] == aid && inside(f, aid) then 1 else 0)
  }

  /** How many entries of the active AOIs hold `f`. */
  function Entries(f: Fixation, aois: seq<AoiId>, inside: (Fixation, AoiId) -> bool): nat
  {
    if |aois| == 0 then 0
    else Entries(f, aois[..|aois| - 1], inside) + (if inside(f, aois[|aois| - 1]) then 1 else 0)
  }

  /** The transitions into the fixations `indices` that come from `aid`:
      for every index past the first fixation, the hits of the fixation
      just before it. */
  function NumTransFrom(fixes: seq<Fixation>, indices: seq<nat>, aois: seq<AoiId>, aid: AoiId,
                        inside: (Fixation, AoiId) -> bool): nat
    requires IndicesWithin(indices, |fixes|)
  {
    if |indices| == 0 then 0
    else
      var i := indices[|indices| - 1];
      NumTransFrom(fixes, indices[..|indices| - 1], aois, aid, inside) + (if i > 0 then Hits(fixes[i - 1], aois, aid, inside) else 0)
  }

  /** All the transitions into the fixations `indices` from an active AOI. */
  function TotalTransFrom(fixes: seq<Fixation>, indices: seq<nat>, aois: seq<AoiId>,
                          inside: (Fixation, AoiId) -> bool): nat
    requires IndicesWithin(indices, |fixes|)
  {
    if |indices| == 0 then 0
    else
      var i := indices[|indices| - 1];
      TotalTransFrom(fixes, indices[..|indices| - 1], aois, inside) + (if i > 0 then Entries(fixes[i - 1], aois, inside) else 0)
  }

  /** The share of the transitions `total` that the count `num` is, 0 when
      there is no transition. */
  function Proportion(num: nat, total: nat): real
  {
    if total > 0 then (num as real) / (total as real) else 0.0
  }

  // ---------------------------------------------------------------------
  // Facts about the counts
  // ---------------------------------------------------------------------

  /** No AOI is hit more often than all AOIs together. */
  lemma {:induction false} HitsAtMostEntries(f: Fixation, aois: seq<AoiId>, aid: AoiId, inside: (Fixation, AoiId) -> bool)
    ensures Hits(f, aois, aid, inside) <= Entries(f, aois, inside)
  {
    if |aois| > 0 {
      HitsAtMostEntries(f, aois[..|aois| - 1], aid, inside);
    }
  }

  /** So no AOI has more incoming transitions than all of them together. */
  lemma {:induction false} NumTransFromAtMostTotal(fixes: seq<Fixation>, indices: seq<nat>, aois: seq<AoiId>, aid: AoiId,
                                                   inside: (Fixation, AoiId) -> bool)
    requires IndicesWithin(indices, |fixes|)
    ensures NumTransFrom(fixes, indices, aois, aid, inside) <= TotalTransFrom(fixes, indices, aois, inside)
  {
    if |indices| > 0 {
      var i := indices[|indices| - 1];
      NumTransFromAtMostTotal(fixes, indices[..|indices| - 1], aois, aid, inside);
      if i > 0 {
        HitsAtMostEntries(fixes[i - 1], aois, aid, inside);
      }
    }
  }

  /** Every proportion lies in [0, 1]. */
  lemma ProportionInUnitRange(num: nat, total: nat)
    requires num <= total
    ensures 0.0 <= Proportion(num, total) <= 1.0
  {
    if total > 0 {
      assert (num as real) <= (total as real);
      assert (num as real) / (total as real) <= (total as real) / (total as real);
    }
  }

  /** The first fixation has no predecessor: listing index 0 among the
      fixation indices adds no transition. */
  lemma {:induction false} FirstFixationAddsNothing(fixes: seq<Fixation>, indices: seq<nat>, aois: seq<AoiId>, aid: AoiId,
                                                    inside: (Fixation, AoiId) -> bool)
    requires IndicesWithin(indices, |fixes|)
    ensures IndicesWithin([0] + indices, |fixes|)
    ensures NumTransFrom(fixes, [0] + indices, aois, aid, inside) == NumTransFrom(fixes, indices, aois, aid, inside)
    ensures TotalTransFrom(fixes, [0] + indices, aois, inside) == TotalTransFrom(fixes, indices, aois, inside)
  {
    assert forall k :: 0 < k < |[0] + indices| ==> ([0] + indices)[k] == indices[k - 1];
    if |indices| > 0 {
      var front := indices[..|indices| - 1];
      assert ([0] + indices)[..|indices|] == [0] + front;
      FirstFixationAddsNothing(fixes, front, aois, aid, inside);
    } else {
      assert ([0] + indices)[..0] == [];
    }
  }

  /** No entry of `aois` is listed twice. */
  predicate Distinct(aois: seq<AoiId>)
  {
    forall j, k :: 0 <= j < k < |aois| ==> aois[j] != aois[k]
  }

  /** An AOI that is not active is never hit. */
  lemma {:induction false} HitsOfInactive(f: Fixation, aois: seq<AoiId>, aid: AoiId, inside: (Fixation, AoiId) -> bool)
    requires aid !in aois
    ensures Hits(f, aois, aid, inside) == 0
  {
    if |aois| > 0 {
      var front := aois[..|aois| - 1];
      assert aid !in front by {
        forall j | 0 <= j < |front|
          ensures front[j] != aid
        {
          assert front[j] == aois[j];
        }
      }
      HitsOfInactive(f, front, aid, inside);
    }
  }

  /** The hits of `f`, summed over the AOIs `aids`. */
  function SumHits(f: Fixation, aids: seq<AoiId>, aois: seq<AoiId>, inside: (Fixation, AoiId) -> bool): nat
  {
    if |aids| == 0 then 0 else SumHits(f, aids[..|aids| - 1], aois, inside) + Hits(f, aois, aids[|aids| - 1], inside)
  }

  /** Appending an AOI that none of `aids` names leaves their hits alone. */
  lemma {:induction false} SumHitsOfOthers(f: Fixation, aids: seq<AoiId>, aois: seq<AoiId>, x: AoiId,
                                           inside: (Fixation, AoiId) -> bool)
    requires x !in aids
    ensures SumHits(f, aids, aois + [x], inside) == SumHits(f, aids, aois, inside)
  {
    if |aids| > 0 {
      var a := aids[|aids| - 1];
      assert (aois + [x])[..|aois|] == aois;
      assert Hits(f, aois + [x], a, inside) == Hits(f, aois, a, inside);
      var front := aids[..|aids| - 1];
      assert x !in front by {
        forall j | 0 <= j < |front|
          ensures front[j] != x
        {
          assert front[j] == aids[j];
        }
      }
      SumHitsOfOthers(f, front, aois, x, inside);
    }
  }

  /** With every AOI listed once, the hits of `f` over all the AOIs are
      the AOIs that hold `f`. */
  lemma {:induction false} SumHitsOfDistinct(f: Fixation, aois: seq<AoiId>, inside: (Fixation, AoiId) -> bool)
    requires Distinct(aois)
    ensures SumHits(f, aois, aois, inside) == Entries(f, aois, inside)
  {
    if |aois| > 0 {
      var p, x := aois[..|aois| - 1], aois[|aois| - 1];
      assert aois == p + [x];
      assert x !in p by {
        forall j | 0 <= j < |p|
          ensures p[j] != x
        {
          assert p[j] == aois[j];
        }
      }
      SumHitsOfOthers(f, p, p, x, inside);
      HitsOfInactive(f, p, x, inside);
      SumHitsOfDistinct(f, p, inside);
    }
  }

  /** The incoming transitions of `indices`, summed over the AOIs `aids`. */
  function SumTransFrom(fixes: seq<Fixation>, indices: seq<nat>, aids: seq<AoiId>, aois: seq<AoiId>,
                        inside: (Fixation, AoiId) -> bool): nat
    requires IndicesWithin(indices, |fixes|)
  {
    if |aids| == 0 then 0
    else SumTransFrom(fixes, indices, aids[..|aids| - 1], aois, inside) + NumTransFrom(fixes, indices, aois, aids[|aids| - 1], inside)
  }

  /** Summing over AOIs and over fixation indices commute. */
  lemma {:induction false} SumTransFromStep(fixes: seq<Fixation>, indices: seq<nat>, aids: seq<AoiId>, aois: seq<AoiId>,
                                            inside: (Fixation, AoiId) -> bool)
    requires IndicesWithin(indices, |fixes|) && |indices| > 0
    ensures var i := indices[|indices| - 1];
      SumTransFrom(fixes, indices, aids, aois, inside)
      == SumTransFrom(fixes, indices[..|indices| - 1], aids, aois, inside) + (if i > 0 then SumHits(fixes[i - 1], aids, aois, inside) else 0)
  {
    if |aids| > 0 {
      SumTransFromStep(fixes, indices, aids[..|aids| - 1], aois, inside);
    }
  }

  /** With every AOI listed once, the per-AOI counts add up to the total,
      so the proportions share out the incoming transitions. */
  lemma {:induction false} CountsAddUp(fixes: seq<Fixation>, indices: seq<nat>, aois: seq<AoiId>,
                                       inside: (Fixation, AoiId) -> bool)
    requires IndicesWithin(indices, |fixes|) && Distinct(aois)
    ensures SumTransFrom(fixes, indices, aois, aois, inside) == TotalTransFrom(fixes, indices, aois, inside)
  {
    if |indices| == 0 {
      ZeroTransitions(fixes, indices, aois, aois, inside);
    } else {
      var i := indices[|indices| - 1];
      SumTransFromStep(fixes, indices, aois, aois, inside);
      CountsAddUp(fixes, indices[..|indices| - 1], aois, inside);
      if i > 0 {
        SumHitsOfDistinct(fixes[i - 1], aois, inside);
      }
    }
  }

  /** Without fixation indices no AOI has a transition. */
  lemma {:induction false} ZeroTransitions(fixes: seq<Fixation>, indices: seq<nat>, aids: seq<AoiId>, aois: seq<AoiId>,
                                           inside: (Fixation, AoiId) -> bool)
    requires |indices| == 0
    ensures SumTransFrom(fixes, indices, aids, aois, inside) == 0
  {
    if |aids| > 0 {
      ZeroTransitions(fixes, indices, aids[..|aids| - 1], aois, inside);
    }
  }

  // ---------------------------------------------------------------------
  // The loops of the source
  // ---------------------------------------------------------------------

  /** Lines 781-783: every active AOI starts with no transition. */
  method ZeroCounts(aois: seq<AoiId>) returns (numTransFrom: map<AoiId, nat>)
    ensures forall aid :: aid in numTransFrom <==> aid in aois
    ensures forall aid :: aid in numTransFrom ==> numTransFrom[aid] == 0
  {
    numTransFrom := map[];
    for j := 0 to |aois|
      invariant forall aid :: aid in numTransFrom <==> aid in aois[..j]
      invariant forall aid :: aid in numTransFrom ==> numTransFrom[aid] == 0
    {
      assert aois[..j + 1] == aois[..j] + [aois[j]];
      numTransFrom := numTransFrom[aois[j] := 0];
    }
    assert aois[..|aois|] == aois;
  }

  /** Lines 788-796: the fixation `f` before one of the AOI's fixations
      adds a transition from every active AOI that holds it. */
  method CountFrom(f: Fixation, aois: seq<AoiId>, inside: (Fixation, AoiId) -> bool,
                   num0: map<AoiId, nat>, total0: nat)
    returns (numTransFrom: map<AoiId, nat>, totalTransFrom: nat)
    requires forall aid :: aid in num0 <==> aid in aois
    ensures forall aid :: aid in numTransFrom <==> aid in aois
    ensures forall aid :: aid in aois ==> numTransFrom[aid] == num0[aid] + Hits(f, aois, aid, inside)
    ensures totalTransFrom == total0 + Entries(f, aois, inside)
  {
    numTransFrom, totalTransFrom := num0, total0;
    for j := 0 to |aois|
      invariant forall aid :: aid in numTransFrom <==> aid in aois
      invariant forall aid :: aid in aois ==> numTransFrom[aid] == num0[aid] + Hits(f, aois[..j], aid, inside)
      invariant totalTransFrom == total0 + Entries(f, aois[..j], inside)
    {
      assert aois[..j + 1][..j] == aois[..j];
      if inside(f, aois[j]) {
        numTransFrom := numTransFrom[aois[j] := numTransFrom[aois[j]] + 1];
        totalTransFrom := totalTransFrom + 1;
      }
    }
    assert aois[..|aois|] == aois;
  }

  /** Lines 797-804: the share of the incoming transitions each active AOI
      has, 0 for all of them when there is no transition. */
  method Proportions(aois: seq<AoiId>, numTransFrom: map<AoiId, nat>, totalTransFrom: nat)
    returns (propTransFrom: map<AoiId, real>)
    requires forall aid :: aid in aois ==> aid in numTransFrom && numTransFrom[aid] <= totalTransFrom
    ensures forall aid :: aid in propTransFrom <==> aid in aois
    ensures forall aid :: aid in aois ==> propTransFrom[aid] == Proportion(numTransFrom[aid], totalTransFrom)
    ensures forall aid :: aid in aois ==> 0.0 <= propTransFrom[aid] <= 1.0
  {
    propTransFrom := map[];
    for j := 0 to |aois|
      invariant forall aid :: aid in propTransFrom <==> aid in aois[..j]
      invariant forall aid :: aid in propTransFrom ==> aid in numTransFrom && propTransFrom[aid] == Proportion(numTransFrom[aid], totalTransFrom)
      invariant forall aid :: aid in propTransFrom ==> 0.0 <= propTransFrom[aid] <= 1.0
    {
      assert aois[..j + 1] == aois[..j] + [aois[j]];
      ProportionInUnitRange(numTransFrom[aois[j]], totalTransFrom);
      propTransFrom := propTransFrom[aois[j] := Proportion(numTransFrom[aois[j]], totalTransFrom)];
    }
    assert aois[..|aois|] == aois;
  }

  /** `generate_transition_features` (lines 779-805): the count of
      incoming transitions from each active AOI ('numtransfrom_<aid>'),
      its share of all of them ('proptransfrom_<aid>'), and their total
      (`total_trans_from`). */
  method GenerateTransitionFeatures(aois: seq<AoiId>, fixes: seq<Fixation>, indices: seq<nat>,
                                    inside: (Fixation, AoiId) -> bool)
    returns (numTransFrom: map<AoiId, nat>, propTransFrom: map<AoiId, real>, totalTransFrom: nat)
    requires IndicesWithin(indices, |fixes|)
    ensures forall aid :: aid in numTransFrom <==> aid in aois
    ensures forall aid :: aid in propTransFrom <==> aid in aois
    ensures totalTransFrom == TotalTransFrom(fixes, indices, aois, inside)
    ensures forall aid :: aid in aois ==> numTransFrom[aid] == NumTransFrom(fixes, indices, aois, aid, inside)
    ensures forall aid :: aid in aois ==> propTransFrom[aid] == Proportion(numTransFrom[aid], totalTransFrom)
    ensures forall aid :: aid in aois ==> 0.0 <= propTransFrom[aid] <= 1.0
  {
    numTransFrom := ZeroCounts(aois);
    totalTransFrom := 0;
    for k := 0 to |indices|
      invariant forall aid :: aid in numTransFrom <==> aid in aois
      invariant forall aid :: aid in aois ==> numTransFrom[aid] == NumTransFrom(fixes, indices[..k], aois, aid, inside)
      invariant totalTransFrom == TotalTransFrom(fixes, indices[..k], aois, inside)
    {
      assert indices[..k + 1][..k] == indices[..k];
      var i := indices[k];
      if i > 0 {
        numTransFrom, totalTransFrom := CountFrom(fixes[i - 1], aois, inside, numTransFrom, totalTransFrom);
      }
    }
    assert indices[..|indices|] == indices;
    forall aid | aid in aois
      ensures numTransFrom[aid] <= totalTransFrom
    {
      NumTransFromAtMostTotal(fixes, indices, aois, aid, inside);
    }
    propTransFrom := Proportions(aois, numTransFrom, totalTransFrom);
  }
}
