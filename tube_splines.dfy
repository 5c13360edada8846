/** The curve sampler: turns the ordered control points into the ordered
    list of oriented samples the mesh builder sweeps its rings along, either
    by straight segments (Linear) or by one cubic Hermite segment per pair of
    control points with Catmull-Rom style tangents (Spline). */
module Splines {
  import opened Geometry
  import opened TubePoints
  import IntMath

  datatype SplineMode = Linear | Spline

  // ---------------------------------------------------------------------
  // Hermite basis (position) and its tangent coefficients

  function H00(t: real): real { 2.0 * t * t * t - 3.0 * t * t + 1.0 }
  function H10(t: real): real { t * t * t - 2.0 * t * t + t }
  function H01(t: real): real { -2.0 * t * t * t + 3.0 * t * t }
  function H11(t: real): real { t * t * t - t * t }

  function D00(t: real): real { 6.0 * t * t - 6.0 * t }
  function D10(t: real): real { 3.0 * t * t - 4.0 * t + 1.0 }
  function D01(t: real): real { -6.0 * t * t + 6.0 * t }
  function D11(t: real): real { 3.0 * t * t - 2.0 * t }

  /** The weighted sum ka*a + kb*b + kc*c + kd*d that both the position and
      the tangent formulas take. */
  function Blend(a: Vec3, b: Vec3, c: Vec3, d: Vec3, ka: real, kb: real, kc: real, kd: real): Vec3 {
    Vec3(a.x * ka + b.x * kb + c.x * kc + d.x * kd,
         a.y * ka + b.y * kb + c.y * kc + d.y * kd,
         a.z * ka + b.z * kb + c.z * kc + d.z * kd)
  }

  /** Position on the Hermite segment from `start` to `end` with end
      tangents `tan1` and `tan2`, at parameter t. */
  function Interpolate(start: Vec3, end: Vec3, tan1: Vec3, tan2: Vec3, t: real): Vec3 {
    Blend(start, tan1, end, tan2, H00(t), H10(t), H01(t), H11(t))
  }

  /** The overload with an `out` tangent: position and derivative together. */
  function InterpolateWithTangent(start: Vec3, end: Vec3, tan1: Vec3, tan2: Vec3, t: real): (r: (Vec3, Vec3))
    ensures r.0 == Interpolate(start, end, tan1, tan2, t)
  {
    (Interpolate(start, end, tan1, tan2, t), Blend(start, tan1, end, tan2, D00(t), D10(t), D01(t), D11(t)))
  }

  lemma StartPoint(start: Vec3, end: Vec3, tan1: Vec3, tan2: Vec3)
    ensures Interpolate(start, end, tan1, tan2, 0.0) == start
  {
  }

  lemma EndPoint(start: Vec3, end: Vec3, tan1: Vec3, tan2: Vec3)
    ensures Interpolate(start, end, tan1, tan2, 1.0) == end
  {
  }

  lemma StartHeading(start: Vec3, end: Vec3, tan1: Vec3, tan2: Vec3)
    ensures InterpolateWithTangent(start, end, tan1, tan2, 0.0).1 == tan1
  {
  }

  lemma EndHeading(start: Vec3, end: Vec3, tan1: Vec3, tan2: Vec3)
    ensures InterpolateWithTangent(start, end, tan1, tan2, 1.0).1 == tan2
  {
  }

  /** A Hermite segment starts at `start` heading along `tan1` and ends at
      `end` heading along `tan2`. */
  lemma HermiteEnds(start: Vec3, end: Vec3, tan1: Vec3, tan2: Vec3)
    ensures InterpolateWithTangent(start, end, tan1, tan2, 0.0) == (start, tan1)
    ensures InterpolateWithTangent(start, end, tan1, tan2, 1.0) == (end, tan2)
  {
    StartPoint(start, end, tan1, tan2);
    EndPoint(start, end, tan1, tan2);
    StartHeading(start, end, tan1, tan2);
    EndHeading(start, end, tan1, tan2);
  }

  /** Each tangent coefficient is the derivative of the matching position
      basis polynomial: it is the first-order coefficient of the expansion
      of the basis around `t`, the rest being `e * e` times a polynomial. */
  lemma TangentIsDerivative(t: real, e: real)
    ensures H00(t + e) - H00(t) == e * D00(t) + e * e * (6.0 * t - 3.0 + 2.0 * e)
    ensures H10(t + e) - H10(t) == e * D10(t) + e * e * (3.0 * t - 2.0 + e)
    ensures H01(t + e) - H01(t) == e * D01(t) + e * e * (-6.0 * t + 3.0 - 2.0 * e)
    ensures H11(t + e) - H11(t) == e * D11(t) + e * e * (3.0 * t - 1.0 + e)
  {
  }

  // ---------------------------------------------------------------------
  // Spline mode

  /** Tangent m0 at the start of segment i: the vector to the next point for
      the first segment, half the previous-to-next chord otherwise. */
  function StartTangent(pts: seq<ControlPoint>, i: int): Vec3
    requires 0 <= i < |pts| - 1
  {
    if i == 0 then Sub(pts[1].position, pts[0].position)
    else Scale(Sub(pts[i + 1].position, pts[i - 1].position), 0.5)
  }

  /** Tangent m1 at the end of segment i: half the chord from this segment's
      start to the point after its end, or the segment's own chord for the
      last segment. */
  function EndTangent(pts: seq<ControlPoint>, i: int): Vec3
    requires 0 <= i < |pts| - 1
  {
    if i < |pts| - 2 then Scale(Sub(pts[(i + 2) % |pts|].position, pts[i].position), 0.5)
    else Sub(pts[i + 1].position, pts[i].position)
  }

  /** The start tangent as chords: away from the first segment, half the
      span from the previous point to the next one is the average of the
      chord into the point and the chord out of it. (On the first segment
      it is the segment's own chord, as defined.) */
  lemma StartTangentChords(pts: seq<ControlPoint>, i: int)
    requires 0 <= i < |pts| - 1
    ensures i == 0 ==> StartTangent(pts, i) == Sub(pts[1].position, pts[0].position)
    ensures i > 0 ==> StartTangent(pts, i) == Scale(Add(Sub(pts[i].position, pts[i - 1].position),
                                                        Sub(pts[i + 1].position, pts[i].position)), 0.5)
  {
  }

  /** The end tangent as chords: before the last segment the index
      `(i + 2) % |pts|` never wraps around, so half the span from the
      segment's start to the point after its end is the average of the
      chords into and out of the end point. (On the last segment it is the
      segment's own chord, as defined.) */
  lemma EndTangentChords(pts: seq<ControlPoint>, i: int)
    requires 0 <= i < |pts| - 1
    ensures i == |pts| - 2 ==> EndTangent(pts, i) == Sub(pts[i + 1].position, pts[i].position)
    ensures i < |pts| - 2 ==> EndTangent(pts, i) == Scale(Add(Sub(pts[i + 1].position, pts[i].position),
                                                              Sub(pts[i + 2].position, pts[i + 1].position)), 0.5)
  {
    assert i < |pts| - 2 ==> (i + 2) % |pts| == i + 2;
  }

  /** The tangent is continuous: the end tangent of a segment equals the
      start tangent of the next one at every interior control point. */
  lemma TangentContinuity(pts: seq<ControlPoint>, i: int)
    requires 0 <= i && i + 1 < |pts| - 1
    ensures EndTangent(pts, i) == StartTangent(pts, i + 1)
  {
    assert (i + 2) % |pts| == i + 2;
  }

  /** Parameter step of segment i: 1/(subdiv+1), except on the last segment,
      where it is 1/subdiv so that its last sample lands on t = 1. */
  function Step(n: int, subdiv: int, i: int): real
    requires subdiv >= 1
  {
    if i == n - 2 then 1.0 / (subdiv as real) else 1.0 / ((subdiv + 1) as real)
  }

  /** Parameter of the j-th sample of a segment whose step is `step`. */
  function SampleT(j: int, step: real): real {
    (j as real) * step
  }

  function Param(n: int, subdiv: int, i: int, j: int): real
    requires subdiv >= 1
  {
    SampleT(j, Step(n, subdiv, i))
  }

  /** Within a segment the samples are taken at increasing t, from 0 up to
      below 1, and only the very last sample of the last segment reaches 1. */
  lemma ParamLayout(n: int, subdiv: int, i: int, j: int)
    requires subdiv >= 1 && 0 <= i < n - 1 && 0 <= j <= subdiv
    ensures Param(n, subdiv, i, 0) == 0.0
    ensures j < subdiv ==> Param(n, subdiv, i, j) < Param(n, subdiv, i, j + 1)
    ensures 0.0 <= Param(n, subdiv, i, j) <= 1.0
    ensures Param(n, subdiv, i, j) == 1.0 <==> (i == n - 2 && j == subdiv)
  {
    var s := subdiv as real;
    var st := Step(n, subdiv, i);
    var a := j as real;
    assert Param(n, subdiv, i, 0) == 0.0 * st;
    assert Param(n, subdiv, i, j) == a * st;
    assert Param(n, subdiv, i, j + 1) == (a + 1.0) * st == a * st + st;
    RealMulLe(0.0, a, st);
    if i == n - 2 {
      assert st * s == 1.0;
      if j == subdiv {
        assert a * st == 1.0;
      } else {
        RealMulLe(a, s - 1.0, st);
        assert (s - 1.0) * st == 1.0 - st;
      }
    } else {
      assert st * (s + 1.0) == 1.0;
      RealMulLe(a, s, st);
      assert s * st == 1.0 - st;
    }
  }

  lemma RealMulLe(a: real, b: real, c: real)
    requires a <= b && c > 0.0
    ensures a * c <= b * c
  {
    assert b * c - a * c == (b - a) * c;
  }

  /** The sample at parameter t of the Hermite segment p0 -> p1 with end
      tangents m0, m1: the right vector is built against world up. */
  function SegmentPoint(p0: Vec3, p1: Vec3, m0: Vec3, m1: Vec3, t: real, ops: Ops): TubePoint {
    var r := InterpolateWithTangent(p0, p1, m0, m1, t);
    TubePoint(r.0, Zero, r.1, ops.normalize(Cross(Up, r.1)), false)
  }

  /** `count` samples of one segment at t = 0, step, 2*step, ... */
  function SegmentSamples(p0: Vec3, p1: Vec3, m0: Vec3, m1: Vec3, count: nat, step: real, ops: Ops): seq<TubePoint> {
    seq(count, j => SegmentPoint(p0, p1, m0, m1, SampleT(j, step), ops))
  }

  /** Sample j of segment i. */
  function SplineSample(pts: seq<ControlPoint>, subdiv: int, ops: Ops, i: int, j: int): TubePoint
    requires subdiv >= 1 && 0 <= i < |pts| - 1
  {
    SegmentPoint(pts[i].position, pts[i + 1].position, StartTangent(pts, i), EndTangent(pts, i),
                 Param(|pts|, subdiv, i, j), ops)
  }

  function SplineSegment(pts: seq<ControlPoint>, subdiv: int, ops: Ops, i: int): (seg: seq<TubePoint>)
    requires subdiv >= 1 && 0 <= i < |pts| - 1
  {
    SegmentSamples(pts[i].position, pts[i + 1].position, StartTangent(pts, i), EndTangent(pts, i),
                   subdiv + 1, Step(|pts|, subdiv, i), ops)
  }

  lemma SplineSegmentAt(pts: seq<ControlPoint>, subdiv: int, ops: Ops, i: int, j: int)
    requires subdiv >= 1 && 0 <= i < |pts| - 1 && 0 <= j <= subdiv
    ensures |SplineSegment(pts, subdiv, ops, i)| == subdiv + 1
    ensures SplineSegment(pts, subdiv, ops, i)[j] == SplineSample(pts, subdiv, ops, i, j)
  {
    var t := Param(|pts|, subdiv, i, j);
    var seg := SplineSegment(pts, subdiv, ops, i);
    assert seg[j] == SegmentPoint(pts[i].position, pts[i + 1].position, StartTangent(pts, i), EndTangent(pts, i), t, ops);
  }

  /** The samples of the first i segments, in curve order. */
  function SplinePrefix(pts: seq<ControlPoint>, subdiv: int, ops: Ops, i: int): seq<TubePoint>
    requires subdiv >= 1 && 0 <= i <= |pts| - 1
    decreases i
  {
    if i == 0 then [] else SplinePrefix(pts, subdiv, ops, i - 1) + SplineSegment(pts, subdiv, ops, i - 1)
  }

  function SplineSamples(pts: seq<ControlPoint>, subdiv: int, ops: Ops): seq<TubePoint>
    requires subdiv >= 1
  {
    if |pts| < 2 then [] else SplinePrefix(pts, subdiv, ops, |pts| - 1)
  }

  lemma {:induction false} SplinePrefixLength(pts: seq<ControlPoint>, subdiv: int, ops: Ops, i: int)
    requires subdiv >= 1 && 0 <= i <= |pts| - 1
    ensures |SplinePrefix(pts, subdiv, ops, i)| == i * (subdiv + 1)
  {
    if i > 0 {
      SplinePrefixLength(pts, subdiv, ops, i - 1);
      SplineSegmentAt(pts, subdiv, ops, i - 1, 0);
      assert (i - 1) * (subdiv + 1) + (subdiv + 1) == i * (subdiv + 1);
    }
  }

  lemma {:induction false} SplinePrefixAt(pts: seq<ControlPoint>, subdiv: int, ops: Ops, i: int, q: int, j: int)
    requires subdiv >= 1 && 0 <= i <= |pts| - 1
    requires 0 <= q < i && 0 <= j <= subdiv
    ensures q * (subdiv + 1) + j < |SplinePrefix(pts, subdiv, ops, i)|
    ensures SplinePrefix(pts, subdiv, ops, i)[q * (subdiv + 1) + j] == SplineSample(pts, subdiv, ops, q, j)
  {
    var w := subdiv + 1;
    var a := SplinePrefix(pts, subdiv, ops, i - 1);
    var b := SplineSegment(pts, subdiv, ops, i - 1);
    assert SplinePrefix(pts, subdiv, ops, i) == a + b;
    SplinePrefixLength(pts, subdiv, ops, i - 1);
    assert |a| == (i - 1) * w;
    if q < i - 1 {
      SplinePrefixAt(pts, subdiv, ops, i - 1, q, j);
    } else {
      assert q * w + j == |a| + j;
      SplineSegmentAt(pts, subdiv, ops, i - 1, j);
      assert (a + b)[|a| + j] == b[j];
    }
  }

  /** Spline mode yields subdiv+1 samples per segment, and sample j of
      segment i sits at index i*(subdiv+1)+j. */
  lemma SplineLayout(pts: seq<ControlPoint>, subdiv: int, ops: Ops, i: int, j: int)
    requires subdiv >= 1 && 0 <= i < |pts| - 1 && 0 <= j <= subdiv
    ensures |SplineSamples(pts, subdiv, ops)| == (|pts| - 1) * (subdiv + 1)
    ensures i * (subdiv + 1) + j < |SplineSamples(pts, subdiv, ops)|
    ensures SplineSamples(pts, subdiv, ops)[i * (subdiv + 1) + j] == SplineSample(pts, subdiv, ops, i, j)
  {
    SplinePrefixLength(pts, subdiv, ops, |pts| - 1);
    SplinePrefixAt(pts, subdiv, ops, |pts| - 1, i, j);
  }

  /** The first spline sample is the first control point, and each segment's
      first sample is its start point, carrying the segment's start tangent. */
  lemma SplineStartsAtFirstPoint(pts: seq<ControlPoint>, subdiv: int, ops: Ops, i: int)
    requires subdiv >= 1 && 0 <= i < |pts| - 1
    ensures |SplineSamples(pts, subdiv, ops)| > i * (subdiv + 1)
    ensures SplineSamples(pts, subdiv, ops)[0].position == pts[0].position
    ensures SplineSamples(pts, subdiv, ops)[i * (subdiv + 1)].position == pts[i].position
    ensures SplineSamples(pts, subdiv, ops)[i * (subdiv + 1)].direction == StartTangent(pts, i)
  {
    SplineLayout(pts, subdiv, ops, 0, 0);
    SplineLayout(pts, subdiv, ops, i, 0);
    ParamLayout(|pts|, subdiv, i, 0);
    ParamLayout(|pts|, subdiv, 0, 0);
    HermiteEnds(pts[0].position, pts[1].position, StartTangent(pts, 0), EndTangent(pts, 0));
    HermiteEnds(pts[i].position, pts[i + 1].position, StartTangent(pts, i), EndTangent(pts, i));
    assert SplineSample(pts, subdiv, ops, 0, 0) == SegmentPoint(pts[0].position, pts[1].position,
             StartTangent(pts, 0), EndTangent(pts, 0), 0.0, ops);
    assert SplineSample(pts, subdiv, ops, i, 0) == SegmentPoint(pts[i].position, pts[i + 1].position,
             StartTangent(pts, i), EndTangent(pts, i), 0.0, ops);
  }

  /** The last spline sample is the last sample of the last segment. */
  lemma SplineLastSample(pts: seq<ControlPoint>, subdiv: int, ops: Ops)
    requires subdiv >= 1 && |pts| >= 2
    ensures var s := SplineSamples(pts, subdiv, ops);
            |s| >= 1 && s[|s| - 1] == SplineSample(pts, subdiv, ops, |pts| - 2, subdiv)
  {
    var n, w := |pts|, subdiv + 1;
    SplineLayout(pts, subdiv, ops, n - 2, subdiv);
    assert (n - 2) * w + subdiv == (n - 1) * w - 1;
  }

  /** The last spline sample is the last control point, reached with the last
      segment's end tangent: that segment's step is 1/subdiv, so its last t is 1. */
  lemma SplineEndsAtLastPoint(pts: seq<ControlPoint>, subdiv: int, ops: Ops)
    requires subdiv >= 1 && |pts| >= 2
    ensures var s := SplineSamples(pts, subdiv, ops);
            |s| >= 1 && s[|s| - 1].position == pts[|pts| - 1].position
                     && s[|s| - 1].direction == EndTangent(pts, |pts| - 2)
  {
    var n := |pts|;
    SplineLastSample(pts, subdiv, ops);
    ParamLayout(n, subdiv, n - 2, subdiv);
    HermiteEnds(pts[n - 2].position, pts[n - 1].position, StartTangent(pts, n - 2), EndTangent(pts, n - 2));
    var last := SegmentPoint(pts[n - 2].position, pts[n - 1].position,
                             StartTangent(pts, n - 2), EndTangent(pts, n - 2), 1.0, ops);
    assert SplineSample(pts, subdiv, ops, n - 2, subdiv) == last;
  }

  // ---------------------------------------------------------------------
  // Linear mode

  /** The sample standing for control point k: its own position, flagged as
      a control point, heading toward the next point (first), from the
      previous point (last), or along the normalised sum of the incoming and
      outgoing unit directions (interior). */
  function MainSample(pts: seq<ControlPoint>, ops: Ops, k: int): (r: TubePoint)
    requires |pts| >= 2 && 0 <= k < |pts|
    ensures r.position == pts[k].position && r.isPoint && r.normal == Zero
    ensures r.right == ops.normalize(Cross(pts[k].up, r.direction))
  {
    var pf :=
      if k == 0 then ops.normalize(Sub(pts[k + 1].position, pts[k].position))
      else if k == |pts| - 1 then ops.normalize(Sub(pts[k].position, pts[k - 1].position))
      else ops.normalize(Add(ops.normalize(Sub(pts[k].position, pts[k - 1].position)),
                             ops.normalize(Sub(pts[k + 1].position, pts[k].position))));
    TubePoint(pts[k].position, Zero, pf, ops.normalize(Cross(pts[k].up, pf)), true)
  }

  /** The sample `j + 1` steps of `dir` past `origin`, heading along `dir`. */
  function StepPoint(origin: Vec3, dir: Vec3, j: int, ops: Ops): TubePoint {
    TubePoint(Add(origin, Scale(dir, (j + 1) as real)), Zero,
              ops.normalize(dir), ops.normalize(Cross(Up, ops.normalize(dir))), false)
  }

  /** `count` samples stepping by `dir` away from `origin`. */
  function StepRun(origin: Vec3, dir: Vec3, count: nat, ops: Ops): seq<TubePoint> {
    seq(count, j => StepPoint(origin, dir, j, ops))
  }

  /** Offset between consecutive samples of segment i: a subdiv-th of it. */
  function SegmentStep(pts: seq<ControlPoint>, subdiv: int, i: int): Vec3
    requires subdiv >= 1 && 0 <= i < |pts| - 1
  {
    Div(Sub(pts[i + 1].position, pts[i].position), subdiv as real)
  }

  /** In-between sample j (0-based) after control point i: step j+1 of
      subdiv along the straight segment to point i+1. */
  function BetweenSample(pts: seq<ControlPoint>, subdiv: int, ops: Ops, i: int, j: int): TubePoint
    requires subdiv >= 1 && 0 <= i < |pts| - 1
  {
    StepPoint(pts[i].position, SegmentStep(pts, subdiv, i), j, ops)
  }

  /** Control point i followed by the subdiv-1 samples between it and i+1. */
  function LinearSegment(pts: seq<ControlPoint>, subdiv: int, ops: Ops, i: int): seq<TubePoint>
    requires subdiv >= 1 && 0 <= i < |pts| - 1
  {
    [MainSample(pts, ops, i)] + StepRun(pts[i].position, SegmentStep(pts, subdiv, i), subdiv - 1, ops)
  }

  function LinearPrefix(pts: seq<ControlPoint>, subdiv: int, ops: Ops, i: int): seq<TubePoint>
    requires subdiv >= 1 && 0 <= i <= |pts| - 1
    decreases i
  {
    if i == 0 then [] else LinearPrefix(pts, subdiv, ops, i - 1) + LinearSegment(pts, subdiv, ops, i - 1)
  }

  function LinearSamples(pts: seq<ControlPoint>, subdiv: int, ops: Ops): seq<TubePoint>
    requires subdiv >= 1 && |pts| != 1
  {
    if |pts| == 0 then [] else LinearPrefix(pts, subdiv, ops, |pts| - 1) + [MainSample(pts, ops, |pts| - 1)]
  }

  /** What CalculateLine has emitted once control points 0..i-1 are done. */
  function LinearDone(pts: seq<ControlPoint>, subdiv: int, ops: Ops, i: int): seq<TubePoint>
    requires subdiv >= 1 && |pts| != 1 && 0 <= i <= |pts|
  {
    if i < |pts| then LinearPrefix(pts, subdiv, ops, i) else LinearSamples(pts, subdiv, ops)
  }

  lemma LinearDoneStep(pts: seq<ControlPoint>, subdiv: int, ops: Ops, i: int)
    requires subdiv >= 1 && |pts| != 1 && 0 <= i < |pts|
    ensures i < |pts| - 1 ==> LinearDone(pts, subdiv, ops, i + 1) == LinearDone(pts, subdiv, ops, i) + LinearSegment(pts, subdiv, ops, i)
    ensures i == |pts| - 1 ==> LinearDone(pts, subdiv, ops, i + 1) == LinearDone(pts, subdiv, ops, i) + [MainSample(pts, ops, i)]
  {
  }

  /** Appending control point i's output to whatever preceded the samples
      of points 0..i-1 gives the output of points 0..i. */
  lemma LinearDoneGrows(base: seq<TubePoint>, pts: seq<ControlPoint>, subdiv: int, ops: Ops, i: int, added: seq<TubePoint>)
    requires subdiv >= 1 && |pts| != 1 && 0 <= i < |pts|
    requires added == if i < |pts| - 1 then LinearSegment(pts, subdiv, ops, i) else [MainSample(pts, ops, i)]
    ensures base + LinearDone(pts, subdiv, ops, i) + added == base + LinearDone(pts, subdiv, ops, i + 1)
  {
    LinearDoneStep(pts, subdiv, ops, i);
    assert base + LinearDone(pts, subdiv, ops, i) + added == base + (LinearDone(pts, subdiv, ops, i) + added);
  }

  /** The sample at offset r of segment q in the linear layout. */
  function LinearSlot(pts: seq<ControlPoint>, subdiv: int, ops: Ops, q: int, r: int): TubePoint
    requires subdiv >= 1 && 0 <= q < |pts| - 1 && 0 <= r < subdiv
  {
    if r == 0 then MainSample(pts, ops, q) else BetweenSample(pts, subdiv, ops, q, r - 1)
  }

  lemma {:induction false} LinearPrefixLength(pts: seq<ControlPoint>, subdiv: int, ops: Ops, i: int)
    requires subdiv >= 1 && 0 <= i <= |pts| - 1
    ensures |LinearPrefix(pts, subdiv, ops, i)| == i * subdiv
  {
    if i > 0 {
      LinearPrefixLength(pts, subdiv, ops, i - 1);
      assert (i - 1) * subdiv + subdiv == i * subdiv;
    }
  }

  lemma {:induction false} LinearPrefixAt(pts: seq<ControlPoint>, subdiv: int, ops: Ops, i: int, q: int, r: int)
    requires subdiv >= 1 && 0 <= i <= |pts| - 1
    requires 0 <= q < i && 0 <= r < subdiv
    ensures q * subdiv + r < |LinearPrefix(pts, subdiv, ops, i)|
    ensures LinearPrefix(pts, subdiv, ops, i)[q * subdiv + r] == LinearSlot(pts, subdiv, ops, q, r)
  {
    var a := LinearPrefix(pts, subdiv, ops, i - 1);
    var b := LinearSegment(pts, subdiv, ops, i - 1);
    assert LinearPrefix(pts, subdiv, ops, i) == a + b;
    LinearPrefixLength(pts, subdiv, ops, i - 1);
    assert |a| == (i - 1) * subdiv;
    if q < i - 1 {
      LinearPrefixAt(pts, subdiv, ops, i - 1, q, r);
    } else {
      assert q * subdiv + r == |a| + r;
      assert (a + b)[|a| + r] == b[r];
    }
  }

  /** Linear mode yields (n-1)*subdiv + 1 samples; control point k sits at
      index k*subdiv, as itself and flagged as a control point. */
  lemma LinearOriginalAt(pts: seq<ControlPoint>, subdiv: int, ops: Ops, k: int)
    requires subdiv >= 1 && |pts| >= 2 && 0 <= k < |pts|
    ensures |LinearSamples(pts, subdiv, ops)| == (|pts| - 1) * subdiv + 1
    ensures k * subdiv < |LinearSamples(pts, subdiv, ops)|
    ensures LinearSamples(pts, subdiv, ops)[k * subdiv] == MainSample(pts, ops, k)
    ensures LinearSamples(pts, subdiv, ops)[k * subdiv].position == pts[k].position
    ensures LinearSamples(pts, subdiv, ops)[k * subdiv].isPoint
  {
    var n := |pts|;
    var a := LinearPrefix(pts, subdiv, ops, n - 1);
    assert LinearSamples(pts, subdiv, ops) == a + [MainSample(pts, ops, n - 1)];
    LinearPrefixLength(pts, subdiv, ops, n - 1);
    if k < n - 1 {
      LinearPrefixAt(pts, subdiv, ops, n - 1, k, 0);
      assert a[k * subdiv] == MainSample(pts, ops, k);
    } else {
      assert k * subdiv == |a|;
    }
  }

  /** The j-th in-between sample after control point i lies at
      p_i + (j+1)*(p_{i+1} - p_i)/subdiv and is not flagged. */
  lemma LinearBetweenAt(pts: seq<ControlPoint>, subdiv: int, ops: Ops, i: int, j: int)
    requires subdiv >= 1 && 0 <= i < |pts| - 1 && 0 <= j < subdiv - 1
    ensures var s := LinearSamples(pts, subdiv, ops);
            i * subdiv + j + 1 < |s|
            && s[i * subdiv + j + 1].position
               == Add(pts[i].position, Scale(Div(Sub(pts[i + 1].position, pts[i].position), subdiv as real), (j + 1) as real))
            && !s[i * subdiv + j + 1].isPoint
  {
    var n := |pts|;
    LinearPrefixLength(pts, subdiv, ops, n - 1);
    LinearPrefixAt(pts, subdiv, ops, n - 1, i, j + 1);
    IntMath.MulMono(i, n - 2, subdiv);
  }

  /** Two points with subdivision 1 give exactly those two points. */
  lemma LinearTwoPoints(pts: seq<ControlPoint>, ops: Ops)
    requires |pts| == 2
    ensures |LinearSamples(pts, 1, ops)| == 2
    ensures LinearSamples(pts, 1, ops)[0].position == pts[0].position
    ensures LinearSamples(pts, 1, ops)[1].position == pts[1].position
  {
    LinearOriginalAt(pts, 1, ops, 0);
    LinearOriginalAt(pts, 1, ops, 1);
  }

  /** The full sample list of either mode. */
  function Sampled(pts: seq<ControlPoint>, mode: SplineMode, subdiv: int, ops: Ops): seq<TubePoint>
    requires subdiv >= 1 && (mode == Linear ==> |pts| != 1)
  {
    match mode
    case Linear => LinearSamples(pts, subdiv, ops)
    case Spline => SplineSamples(pts, subdiv, ops)
  }

  /** From two control points on, both modes give at least two samples. */
  lemma AtLeastTwoSamples(pts: seq<ControlPoint>, mode: SplineMode, subdiv: int, ops: Ops)
    requires subdiv >= 1 && |pts| >= 2
    ensures |Sampled(pts, mode, subdiv, ops)| >= 2
  {
    match mode
    case Linear =>
      LinearOriginalAt(pts, subdiv, ops, 0);
      IntMath.MulMono(1, |pts| - 1, subdiv);
    case Spline =>
      SplineLayout(pts, subdiv, ops, 0, 0);
      IntMath.MulMono(1, |pts| - 1, subdiv + 1);
  }

  // ---------------------------------------------------------------------
  // The sampler object

  class TubeSplines {
    var samples: seq<TubePoint>

    constructor()
      ensures samples == []
    {
      samples := [];
    }

    /** Clears the sample list and regenerates it from scratch. */
    method CalculateSamples(points: seq<ControlPoint>, mode: SplineMode, subdiv: int, ops: Ops)
      requires subdiv >= 1 && (mode == Linear ==> |points| != 1)
      modifies this
      ensures samples == Sampled(points, mode, subdiv, ops)
    {
      samples := [];
      match mode
      case Linear => CalculateLine(points, subdiv, ops);
      case Spline => CalculateSpline(points, subdiv, ops);
    }

    method CalculateSpline(points: seq<ControlPoint>, subdiv: int, ops: Ops)
      requires subdiv >= 1
      modifies this
      ensures samples == old(samples) + SplineSamples(points, subdiv, ops)
    {
      var n := |points|;
      var steps := subdiv + 1;
      var pointStep: real := 1.0 / (steps as real);
      var i := 0;
      while i < n - 1
        invariant 0 <= i <= if n < 1 then 0 else n - 1
        invariant n < 1 ==> samples == old(samples)
        invariant n >= 1 ==> samples == old(samples) + SplinePrefix(points, subdiv, ops, i)
        invariant i <= n - 2 ==> pointStep == 1.0 / (steps as real)
      {
        var p0 := points[i].position;
        var p1 := points[i + 1].position;
        var m0, m1;
        if i == 0 {
          m0 := Sub(p1, p0);
        } else {
          m0 := Scale(Sub(p1, points[i - 1].position), 0.5);
        }
        if i < n - 2 {
          m1 := Scale(Sub(points[(i + 2) % n].position, p0), 0.5);
        } else {
          m1 := Sub(p1, p0);
        }
        if i == n - 2 {
          pointStep := 1.0 / ((steps - 1) as real);
        }
        assert pointStep == Step(n, subdiv, i);
        assert p0 == points[i].position && p1 == points[i + 1].position;
        assert m0 == StartTangent(points, i) && m1 == EndTangent(points, i);
        ghost var prefix := SplinePrefix(points, subdiv, ops, i);
        ghost var seg := SplineSegment(points, subdiv, ops, i);
        assert SegmentSamples(p0, p1, m0, m1, steps, pointStep, ops) == seg;
        ghost var before := samples;
        AppendSegment(p0, p1, m0, m1, steps, pointStep, ops);
        assert samples == before + seg;
        assert forall k :: 0 <= k < |samples| ==> samples[k] == (old(samples) + (prefix + seg))[k];
        i := i + 1;
      }
    }

    /** The inner loop of CalculateSpline: appends `count` samples of one
        Hermite segment, at t = 0, step, 2*step, ... */
    method AppendSegment(p0: Vec3, p1: Vec3, m0: Vec3, m1: Vec3, count: nat, pointStep: real, ops: Ops)
      modifies this
      ensures samples == old(samples) + SegmentSamples(p0, p1, m0, m1, count, pointStep, ops)
    {
      ghost var seg := SegmentSamples(p0, p1, m0, m1, count, pointStep, ops);
      var j := 0;
      while j < count
        invariant 0 <= j <= count
        invariant samples == old(samples) + seg[..j]
      {
        var t := SampleT(j, pointStep);
        var r := InterpolateWithTangent(p0, p1, m0, m1, t);
        var position, tangent := r.0, r.1;
        var tp := TubePoint(position, Zero, tangent, ops.normalize(Cross(Up, tangent)), false);
        assert tp == seg[j];
        samples := samples + [tp];
        assert seg[..j + 1] == seg[..j] + [tp];
        j := j + 1;
      }
      assert seg[..count] == seg;
    }

    method CalculateLine(points: seq<ControlPoint>, subdiv: int, ops: Ops)
      requires subdiv >= 1 && |points| != 1
      modifies this
      ensures samples == old(samples) + LinearSamples(points, subdiv, ops)
    {
      var n := |points|;
      var mainSamples := ControlSamples(points, ops);
      var i := 0;
      while i < n
        invariant 0 <= i <= n
        invariant samples == old(samples) + LinearDone(points, subdiv, ops, i)
      {
        if i < n - 1 {
          AppendLinearSegment(points, subdiv, ops, i, mainSamples[i], mainSamples[i + 1].position);
          LinearDoneGrows(old(samples), points, subdiv, ops, i, LinearSegment(points, subdiv, ops, i));
        } else {
          samples := samples + [mainSamples[i]];
          LinearDoneGrows(old(samples), points, subdiv, ops, i, [MainSample(points, ops, i)]);
        }
        i := i + 1;
      }
    }

    /** One pass of CalculateLine's second loop for a point that has a
        successor: the point's own sample, then the subdiv-1 in-between
        samples toward `next`. */
    method AppendLinearSegment(points: seq<ControlPoint>, subdiv: int, ops: Ops, i: int, main: TubePoint, next: Vec3)
      requires subdiv >= 1 && 0 <= i < |points| - 1
      requires main == MainSample(points, ops, i) && next == points[i + 1].position
      modifies this
      ensures samples == old(samples) + LinearSegment(points, subdiv, ops, i)
    {
      samples := samples + [main];
      var dir := Div(Sub(next, main.position), subdiv as real);
      assert dir == SegmentStep(points, subdiv, i);
      AppendSteps(main.position, dir, subdiv - 1, ops);
    }

    /** The first loop of CalculateLine: one sample per control point,
        in order. */
    method ControlSamples(points: seq<ControlPoint>, ops: Ops) returns (mainSamples: seq<TubePoint>)
      requires |points| != 1
      ensures |mainSamples| == |points|
      ensures forall k :: 0 <= k < |points| ==> mainSamples[k] == MainSample(points, ops, k)
    {
      var n := |points|;
      mainSamples := [];
      var i := 0;
      while i < n
        invariant 0 <= i <= n
        invariant |mainSamples| == i
        invariant forall k :: 0 <= k < i ==> mainSamples[k] == MainSample(points, ops, k)
      {
        var p := points[i];
        var pf;
        if i == 0 {
          pf := ops.normalize(Sub(points[i + 1].position, p.position));
        } else if i == n - 1 {
          pf := ops.normalize(Sub(p.position, points[i - 1].position));
        } else {
          var dir0 := ops.normalize(Sub(p.position, points[i - 1].position));
          var dir1 := ops.normalize(Sub(points[i + 1].position, p.position));
          var res := Add(dir0, dir1);
          pf := ops.normalize(res);
        }
        mainSamples := mainSamples + [TubePoint(p.position, Zero, pf, ops.normalize(Cross(p.up, pf)), true)];
        i := i + 1;
      }
    }

    /** The in-between loop of CalculateLine: appends `count` samples, each
        one more step of `dir` past `origin`. */
    method AppendSteps(origin: Vec3, dir: Vec3, count: int, ops: Ops)
      requires count >= 0
      modifies this
      ensures samples == old(samples) + StepRun(origin, dir, count, ops)
    {
      ghost var run := StepRun(origin, dir, count, ops);
      var j := 0;
      while j < count
        invariant 0 <= j <= count
        invariant samples == old(samples) + run[..j]
      {
        var tp := TubePoint(Add(origin, Scale(dir, (j + 1) as real)), Zero,
                            ops.normalize(dir), ops.normalize(Cross(Up, ops.normalize(dir))), false);
        assert tp == run[j];
        samples := samples + [tp];
        assert run[..j + 1] == run[..j] + [run[j]];
        j := j + 1;
      }
      assert run[..count] == run;
    }
  }
}
