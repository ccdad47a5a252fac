/** The scan-path calculations of `calc_distances`, `calc_abs_angles` and
    `calc_rel_angles`: from a list of fixations they produce, per saccade,
    its length, its absolute angle to the horizontal axis and the angle it
    makes with the previous saccade. */
module Path {
  import opened Features
  import opened Stats

  // ---------------------------------------------------------------------
  // Specification of one saccade
  // ---------------------------------------------------------------------

  /** `geometry.simpledotproduct` of the vectors (a1, b1) and (a2, b2). */
  function Dot(a1: real, b1: real, a2: real, b2: real): real
  {
    a1 * a2 + b1 * b2
  }

  /** Squared Euclidean distance from (x1, y1) to (x2, y2). */
  function SquaredDistance(x1: real, y1: real, x2: real, y2: real): real
  {
    (x2 - x1) * (x2 - x1) + (y2 - y1) * (y2 - y1)
  }

  /** Euclidean length of the saccade from `f` to `g`. */
  function SaccadeLength(f: Fixation, g: Fixation, sqrt: real -> real): real
  {
    sqrt(SquaredDistance(f.x, f.y, g.x, g.y))
  }

  function Abs(x: real): (r: real)
    ensures r >= 0.0 && (r == x || r == -x)
  {
    if x < 0.0 then -x else x
  }

  /** Absolute angle of the saccade from `f` to `g`: the magnitude of the
      direction `geometry.vector_difference` reports. */
  function SaccadeAngle(f: Fixation, g: Fixation, direction: (real, real, real, real) -> real): (r: real)
    ensures r >= 0.0
  {
    Abs(direction(f.x, f.y, g.x, g.y))
  }

  /** The clamp of a dot product into the domain [-1, 1] of the arccosine. */
  function Clamp(d: real): (r: real)
    ensures -1.0 <= r <= 1.0
    ensures -1.0 <= d <= 1.0 ==> r == d
    ensures d < -1.0 ==> r == -1.0
    ensures d > 1.0 ==> r == 1.0
  {
    if d < -1.0 then -1.0 else if d > 1.0 then 1.0 else d
  }

  /** The vector from `from` to `to`. */
  datatype Vec = Vec(dx: real, dy: real)

  function Arm(from: Fixation, to: Fixation): Vec
  {
    Vec(to.x - from.x, to.y - from.y)
  }

  predicate IsZeroVec(u: Vec)
  {
    u.dx == 0.0 && u.dy == 0.0
  }

  /** The Euclidean norm of `u`, by the given square root. */
  function Norm(u: Vec, sqrt: real -> real): real
  {
    sqrt(Dot(u.dx, u.dy, u.dx, u.dy))
  }

  /** The dot product of `u` and `v` once each is divided by its norm. */
  function Cosine(u: Vec, n1: real, v: Vec, n2: real): real
    requires n1 != 0.0 && n2 != 0.0
  {
    Dot(u.dx / n1, u.dy / n1, v.dx / n2, v.dy / n2)
  }

  /** The angle at `cur` between the saccade arriving from `prev` and the
      saccade leaving for `next`: the arccosine of the clamped dot product
      of the two normalised vectors, 0 when either vector is zero, and
      Python's ZeroDivisionError when a norm of a non-zero vector comes out
      as 0 (which floating-point underflow allows). */
  function TurnAngle(prev: Fixation, cur: Fixation, next: Fixation, ops: MathOps): Result<real>
  {
    var u, v := Arm(cur, prev), Arm(cur, next);
    if !IsZeroVec(u) && !IsZeroVec(v) then
      var n1, n2 := Norm(u, ops.sqrt), Norm(v, ops.sqrt);
      if n1 == 0.0 || n2 == 0.0 then Err(ZeroDivision)
      else Ok(ops.acos(Clamp(Cosine(u, n1, v, n2))))
    else
      Ok(0.0)
  }

  // ---------------------------------------------------------------------
  // Specification of a whole path
  // ---------------------------------------------------------------------

  function NumSaccades(fixes: seq<Fixation>): nat
  {
    if |fixes| == 0 then 0 else |fixes| - 1
  }

  function NumTurns(fixes: seq<Fixation>): nat
  {
    if |fixes| < 2 then 0 else |fixes| - 2
  }

  /** Length of every saccade of the path. */
  function PathDistances(fixes: seq<Fixation>, sqrt: real -> real): (r: seq<real>)
    ensures |r| == NumSaccades(fixes)
    ensures forall i :: 0 <= i < |r| ==> r[i] == SaccadeLength(fixes[i], fixes[i + 1], sqrt)
  {
    seq(NumSaccades(fixes), i requires 0 <= i < NumSaccades(fixes) => SaccadeLength(fixes[i], fixes[i + 1], sqrt))
  }

  /** Absolute angle of every saccade of the path. */
  function PathAbsAngles(fixes: seq<Fixation>, direction: (real, real, real, real) -> real): (r: seq<real>)
    ensures |r| == NumSaccades(fixes)
    ensures forall i :: 0 <= i < |r| ==> r[i] == SaccadeAngle(fixes[i], fixes[i + 1], direction)
  {
    seq(NumSaccades(fixes), i requires 0 <= i < NumSaccades(fixes) => SaccadeAngle(fixes[i], fixes[i + 1], direction))
  }

  /** The turn angles at the first `k` inner fixations, or the error of the
      first turn that fails. */
  function TurnAnglesUpTo(fixes: seq<Fixation>, k: nat, ops: MathOps): (r: Result<seq<real>>)
    requires k <= NumTurns(fixes)
    ensures r.Ok? ==> |r.value| == k
    ensures r.Err? ==> r.error == ZeroDivision
  {
    if k == 0 then Ok([])
    else
      var front :- TurnAnglesUpTo(fixes, k - 1, ops);
      var theta :- TurnAngle(fixes[k - 1], fixes[k], fixes[k + 1], ops);
      Ok(front + [theta])
  }

  /** Turn angle at every inner fixation of the path. */
  function PathRelAngles(fixes: seq<Fixation>, ops: MathOps): Result<seq<real>>
  {
    TurnAnglesUpTo(fixes, NumTurns(fixes), ops)
  }

  /** The turn angles are computed one inner fixation at a time: the list
      holds every turn's angle in order, and it is an error exactly when one
      of the turns is. */
  lemma TurnAnglesUpToPointwise(fixes: seq<Fixation>, k: nat, ops: MathOps)
    requires k <= NumTurns(fixes)
    ensures TurnAnglesUpTo(fixes, k, ops).Ok? <==> forall i :: 0 <= i < k ==> TurnAngle(fixes[i], fixes[i + 1], fixes[i + 2], ops).Ok?
    ensures TurnAnglesUpTo(fixes, k, ops).Ok? ==>
              forall i :: 0 <= i < k ==> TurnAngle(fixes[i], fixes[i + 1], fixes[i + 2], ops) == Ok(TurnAnglesUpTo(fixes, k, ops).value[i])
  {
    TurnAnglesUpToOk(fixes, k, ops);
    if TurnAnglesUpTo(fixes, k, ops).Ok? {
      TurnAnglesUpToValues(fixes, k, ops);
    }
  }

  lemma {:induction false} TurnAnglesUpToOk(fixes: seq<Fixation>, k: nat, ops: MathOps)
    requires k <= NumTurns(fixes)
    ensures TurnAnglesUpTo(fixes, k, ops).Ok? <==> forall i :: 0 <= i < k ==> TurnAngle(fixes[i], fixes[i + 1], fixes[i + 2], ops).Ok?
  {
    if k > 0 {
      TurnAnglesUpToOk(fixes, k - 1, ops);
    }
  }

  lemma {:induction false} TurnAnglesUpToValues(fixes: seq<Fixation>, k: nat, ops: MathOps)
    requires k <= NumTurns(fixes) && TurnAnglesUpTo(fixes, k, ops).Ok?
    ensures forall i :: 0 <= i < k ==> TurnAngle(fixes[i], fixes[i + 1], fixes[i + 2], ops) == Ok(TurnAnglesUpTo(fixes, k, ops).value[i])
  {
    if k > 0 {
      TurnAnglesUpToValues(fixes, k - 1, ops);
    }
  }

  /** Once a turn fails, every longer prefix fails with it. */
  lemma {:induction false} TurnAnglesUpToFails(fixes: seq<Fixation>, k: nat, m: nat, ops: MathOps)
    requires k <= m <= NumTurns(fixes)
    requires TurnAnglesUpTo(fixes, k, ops).Err?
    ensures TurnAnglesUpTo(fixes, m, ops) == Err(ZeroDivision)
    decreases m - k
  {
    if k < m {
      TurnAnglesUpToFails(fixes, k + 1, m, ops);
    }
  }

  // ---------------------------------------------------------------------
  // Properties of the path specification
  // ---------------------------------------------------------------------

  /** Saccade lengths are non-negative, and a saccade that does not move
      has length 0. */
  lemma SaccadeLengthOfStill(f: Fixation, g: Fixation, sqrt: real -> real)
    requires IsSqrt(sqrt)
    ensures SaccadeLength(f, g, sqrt) >= 0.0
    ensures f.x == g.x && f.y == g.y ==> SaccadeLength(f, g, sqrt) == 0.0
  {
    if f.x == g.x && f.y == g.y {
      assert SquaredDistance(f.x, f.y, g.x, g.y) == 0.0;
      var z := sqrt(0.0);
      assert z >= 0.0 && z * z == 0.0 * 0.0;
      SquareRootUnique(z, 0.0);
    }
  }

  /** Walking the path backwards gives the same saccade lengths in reverse
      order. */
  function Reverse<T>(s: seq<T>): (r: seq<T>)
    ensures |r| == |s|
    ensures forall i :: 0 <= i < |s| ==> r[i] == s[|s| - 1 - i]
  {
    seq(|s|, i requires 0 <= i < |s| => s[|s| - 1 - i])
  }

  lemma SquaredDistanceSymmetric(x1: real, y1: real, x2: real, y2: real)
    ensures SquaredDistance(x1, y1, x2, y2) == SquaredDistance(x2, y2, x1, y1)
  {
    assert (x2 - x1) * (x2 - x1) == (x1 - x2) * (x1 - x2);
    assert (y2 - y1) * (y2 - y1) == (y1 - y2) * (y1 - y2);
  }

  lemma SaccadeLengthSymmetric(f: Fixation, g: Fixation, sqrt: real -> real)
    ensures SaccadeLength(f, g, sqrt) == SaccadeLength(g, f, sqrt)
  {
    SquaredDistanceSymmetric(f.x, f.y, g.x, g.y);
  }

  lemma PathDistancesReversed(fixes: seq<Fixation>, sqrt: real -> real)
    ensures PathDistances(Reverse(fixes), sqrt) == Reverse(PathDistances(fixes, sqrt))
  {
    var rf := Reverse(fixes);
    var ds := PathDistances(fixes, sqrt);
    var r := PathDistances(rf, sqrt);
    var d := Reverse(ds);
    assert |r| == |d|;
    forall i | 0 <= i < |r|
      ensures r[i] == d[i]
    {
      var n := |fixes|;
      var k := n - 2 - i;
      assert r[i] == SaccadeLength(rf[i], rf[i + 1], sqrt);
      assert d[i] == ds[k];
      assert ds[k] == SaccadeLength(fixes[k], fixes[k + 1], sqrt);
      assert rf[i] == fixes[k + 1] && rf[i + 1] == fixes[k];
      SaccadeLengthSymmetric(fixes[k], fixes[k + 1], sqrt);
    }
  }

  /** A turn at a fixation that coincides with its predecessor or its
      successor is 0. */
  lemma TurnAngleOfRepeatedFixation(prev: Fixation, cur: Fixation, next: Fixation, ops: MathOps)
    requires (prev.x == cur.x && prev.y == cur.y) || (next.x == cur.x && next.y == cur.y)
    ensures TurnAngle(prev, cur, next, ops) == Ok(0.0)
  {
  }

  /** Whatever the arccosine does outside [-1, 1], a turn angle is 0 or the
      arccosine of a value inside that domain. */
  lemma TurnAngleInAcosRange(prev: Fixation, cur: Fixation, next: Fixation, ops: MathOps)
    requires TurnAngle(prev, cur, next, ops).Ok?
    ensures TurnAngle(prev, cur, next, ops).value == 0.0
            || exists d :: -1.0 <= d <= 1.0 && TurnAngle(prev, cur, next, ops).value == ops.acos(d)
  {
    var u, v := Arm(cur, prev), Arm(cur, next);
    if !IsZeroVec(u) && !IsZeroVec(v) {
      var d := Clamp(Cosine(u, Norm(u, ops.sqrt), v, Norm(v, ops.sqrt)));
      assert TurnAngle(prev, cur, next, ops).value == ops.acos(d);
    }
  }

  /** A path of fewer than three fixations has no turn. */
  lemma ShortPathHasNoTurns(fixes: seq<Fixation>, ops: MathOps)
    requires |fixes| < 3
    ensures PathRelAngles(fixes, ops) == Ok([])
  {
  }

  // ---------------------------------------------------------------------
  // The loops of the source
  // ---------------------------------------------------------------------

  /** `calc_distances` (lines 481-499). */
  method CalcDistances(fixdata: seq<Fixation>, sqrt: real -> real) returns (distances: seq<real>)
    requires |fixdata| > 0
    ensures distances == PathDistances(fixdata, sqrt)
  {
    distances := [];
    var lastx := fixdata[0].x;
    var lasty := fixdata[0].y;
    for i := 1 to |fixdata|
      invariant lastx == fixdata[i - 1].x && lasty == fixdata[i - 1].y
      invariant |distances| == i - 1
      invariant forall j :: 0 <= j < i - 1 ==> distances[j] == SaccadeLength(fixdata[j], fixdata[j + 1], sqrt)
    {
      var x := fixdata[i].x;
      var y := fixdata[i].y;
      var dist := sqrt(SquaredDistance(lastx, lasty, x, y));
      distances := distances + [dist];
      lastx := x;
      lasty := y;
    }
  }

  /** `calc_abs_angles` (lines 501-524). */
  method CalcAbsAngles(fixdata: seq<Fixation>, direction: (real, real, real, real) -> real) returns (absAngles: seq<real>)
    requires |fixdata| > 0
    ensures absAngles == PathAbsAngles(fixdata, direction)
  {
    absAngles := [];
    var lastx := fixdata[0].x;
    var lasty := fixdata[0].y;
    for i := 1 to |fixdata|
      invariant lastx == fixdata[i - 1].x && lasty == fixdata[i - 1].y
      invariant |absAngles| == i - 1
      invariant forall j :: 0 <= j < i - 1 ==> absAngles[j] == SaccadeAngle(fixdata[j], fixdata[j + 1], direction)
    {
      var x := fixdata[i].x;
      var y := fixdata[i].y;
      var theta := direction(lastx, lasty, x, y);
      absAngles := absAngles + [Abs(theta)];
      lastx := x;
      lasty := y;
    }
  }

  /** `calc_rel_angles` (lines 526-568). */
  method CalcRelAngles(fixdata: seq<Fixation>, ops: MathOps) returns (relAngles: Result<seq<real>>)
    requires |fixdata| > 0
    ensures relAngles == PathRelAngles(fixdata, ops)
  {
    var angles: seq<real> := [];
    var lastx := fixdata[0].x;
    var lasty := fixdata[0].y;
    var i := 1;
    while i < |fixdata| - 1
      invariant 1 <= i <= NumTurns(fixdata) + 1
      invariant lastx == fixdata[i - 1].x && lasty == fixdata[i - 1].y
      invariant TurnAnglesUpTo(fixdata, i - 1, ops) == Ok(angles)
    {
      var x := fixdata[i].x;
      var y := fixdata[i].y;
      var nextx := fixdata[i + 1].x;
      var nexty := fixdata[i + 1].y;
      var a1, b1 := lastx - x, lasty - y;
      var a2, b2 := nextx - x, nexty - y;
      var theta: real;
      if (a1 != 0.0 || b1 != 0.0) && (a2 != 0.0 || b2 != 0.0) {
        var v1Norm := ops.sqrt(Dot(a1, b1, a1, b1));
        var v2Norm := ops.sqrt(Dot(a2, b2, a2, b2));
        if v1Norm == 0.0 || v2Norm == 0.0 {
          assert TurnAngle(fixdata[i - 1], fixdata[i], fixdata[i + 1], ops) == Err(ZeroDivision);
          TurnAnglesUpToFails(fixdata, i, NumTurns(fixdata), ops);
          return Err(ZeroDivision);
        }
        var normv1x, normv1y := a1 / v1Norm, b1 / v1Norm;
        var normv2x, normv2y := a2 / v2Norm, b2 / v2Norm;
        var dotProduct := Dot(normv1x, normv1y, normv2x, normv2y);
        if dotProduct < -1.0 {
          dotProduct := -1.0;
        }
        if dotProduct > 1.0 {
          dotProduct := 1.0;
        }
        theta := ops.acos(dotProduct);
      } else {
        theta := 0.0;
      }
      assert TurnAngle(fixdata[i - 1], fixdata[i], fixdata[i + 1], ops) == Ok(theta);
      angles := angles + [theta];
      lastx := x;
      lasty := y;
      i := i + 1;
    }
    relAngles := Ok(angles);
  }
}
