/** The generator component: the triangle-count planner that trades the
    number of sides against a triangle budget, the clamps applied to the
    tunable parameters, the level-of-detail sweep that keeps only levels
    strictly coarser than the previous one, and the rebuild that samples the
    curve and hands the result to a mesh builder. */
module Generator {
  import opened Geometry
  import opened TubePoints
  import opened MeshLayout
  import opened Splines
  import opened Mesh
  import opened IntMath

  // ---------------------------------------------------------------------
  // Triangle counts

  /** Triangles of a tube with `sides` quads around and `samplesCount`
      rings: two per quad; with thickness both walls plus two annular caps
      of 2 * sides triangles each. This is exactly the number of triangles
      the mesh builder writes. */
  function TrianglesCount(sides: int, hasThickness: bool, samplesCount: int): (tris: int)
    ensures 3 * tris == MeshIndexCount(sides, samplesCount, hasThickness)
  {
    var wall := sides * 2 * (samplesCount - 1);
    if hasThickness then wall * 2 + sides * 2 * 2 else wall
  }

  /** A mesh's index count is three indices a triangle. */
  lemma TrianglesOfMesh(sides: int, hasThickness: bool, samplesCount: int)
    ensures MeshIndexCount(sides, samplesCount, hasThickness) / 3 == TrianglesCount(sides, hasThickness, samplesCount)
  {
    IntMath.DivModOf(TrianglesCount(sides, hasThickness, samplesCount), 0, 3);
  }

  // ---------------------------------------------------------------------
  // The polycount planner

  /** The side count the planner picks for a budget of `tris` triangles:
      the budget spread over the samplesCount - 1 ring gaps, two triangles a
      quad (C# division, toward zero); with thickness halved for the two
      walls and then lowered until the two caps' 4 * sides triangles fit in
      what is left of the budget after the caps (8 * sides <= tris); never
      below 3. */
  function PolycountSides(tris: int, hasThickness: bool, samplesCount: int): (sides: int)
    requires samplesCount >= 2
    ensures sides >= 3
  {
    var perWall := DivT(DivT(tris, 2), samplesCount - 1);
    var fitted := if hasThickness then Min(DivT(perWall, 2), tris / 8) else perWall;
    if fitted < 3 then 3 else fitted
  }

  /** The planner's loop: halve for thickness, then step the side count
      down while the caps' triangles exceed what remains of the budget. */
  method CalculateParametersByPolycount(tris: int, hasThickness: bool, samplesCount: int) returns (sides: int)
    requires samplesCount >= 2
    ensures sides == PolycountSides(tris, hasThickness, samplesCount)
  {
    sides := DivT(DivT(tris, 2), samplesCount - 1);
    if hasThickness {
      sides := DivT(sides, 2);
      ghost var start := sides;
      var capTris := sides * 2 * 2;
      while capTris > tris - sides * 2 * 2
        invariant Min(start, tris / 8) <= sides <= start
        invariant sides == start || 8 * (sides + 1) > tris
        invariant capTris == sides * 2 * 2
        decreases sides - tris / 8
      {
        sides := sides - 1;
        capTris := sides * 2 * 2;
      }
    }
    if sides < 3 {
      sides := 3;
    }
  }

  /** Without thickness the planner inverts the count: planning for the
      triangles of a tube with s >= 3 sides gives back s. */
  lemma ThinRoundTrip(sides: int, samplesCount: int)
    requires sides >= 3 && samplesCount >= 2
    ensures PolycountSides(TrianglesCount(sides, false, samplesCount), false, samplesCount) == sides
  {
    var gaps := samplesCount - 1;
    IntMath.MulMono(0, sides, gaps);
    assert TrianglesCount(sides, false, samplesCount) == (sides * gaps) * 2 + 0;
    IntMath.DivModOf(sides * gaps, 0, 2);
    IntMath.DivModOf(sides, 0, gaps);
  }

  /** With thickness, a side count above the floor of 3 leaves room for the
      caps (their 4 * sides triangles fit in the budget minus the caps), and
      it is the largest such count not above the halved per-wall guess. */
  lemma ThickCapsFit(tris: int, samplesCount: int)
    requires samplesCount >= 2
    ensures var r := PolycountSides(tris, true, samplesCount);
            r > 3 ==> r * 2 * 2 <= tris - r * 2 * 2
    ensures var r := PolycountSides(tris, true, samplesCount);
            var guess := DivT(DivT(DivT(tris, 2), samplesCount - 1), 2);
            r > 3 ==> r <= guess && (r == guess || (r + 1) * 2 * 2 > tris - (r + 1) * 2 * 2)
  {
    var guess := DivT(DivT(DivT(tris, 2), samplesCount - 1), 2);
    var fitted := Min(guess, tris / 8);
    assert 8 * (tris / 8) <= tris < 8 * (tris / 8 + 1);
    if fitted > 3 {
      assert PolycountSides(tris, true, samplesCount) == fitted;
    }
  }

  /** Thickness breaks the round trip: a 4-sided thick tube over 3 samples
      has 48 triangles, and planning for 48 gives 6 sides. */
  lemma ThickRoundTripDiffers()
    ensures TrianglesCount(4, true, 3) == 48
    ensures PolycountSides(48, true, 3) == 6
  {
    assert DivT(DivT(48, 2), 2) == 12;
  }

  /** Thickness can overshoot the budget: planning for 1000 triangles over
      3 samples gives 125 sides, whose thick tube has 1500 triangles. */
  lemma ThickBudgetExceeded()
    ensures PolycountSides(1000, true, 3) == 125
    ensures TrianglesCount(125, true, 3) == 1500
  {
    assert DivT(DivT(1000, 2), 2) == 250;
  }

  // ---------------------------------------------------------------------
  // Parameter bounds

  datatype ParameterMode = ByParameters | ByPolyCount

  /** The tunable fields the generator clamps before every rebuild. */
  datatype Parameters = Parameters(
    sides: int,
    subdivision: int,
    radius: real,
    thickness: real,
    shellType: Shell,
    triangles: int,
    numberLODs: int,
    koeffLOD: real)

  /** Every parameter inside its allowed range. */
  predicate Bounded(p: Parameters) {
    p.sides >= 3 && p.subdivision >= 1 && p.radius >= 0.1 && p.thickness >= 0.0
    && (p.shellType == Inward ==> p.thickness <= p.radius - 0.1)
    && p.triangles >= 6 && 0 <= p.numberLODs <= 5 && p.koeffLOD >= 1.0
  }

  /** The clamps, in the order they are applied: each field is raised to
      its minimum (numberLODs also lowered to 5); an inward shell's
      thickness is then capped at radius - 0.1. */
  function Clamp(p: Parameters): (q: Parameters)
    ensures Bounded(q)
  {
    var radius := if p.radius < 0.1 then 0.1 else p.radius;
    var positive := if p.thickness < 0.0 then 0.0 else p.thickness;
    var thickness := if p.shellType == Inward && positive >= radius - 0.1 then radius - 0.1 else positive;
    var lodsAtLeast := if p.numberLODs < 0 then 0 else p.numberLODs;
    Parameters(
      if p.sides < 3 then 3 else p.sides,
      if p.subdivision < 1 then 1 else p.subdivision,
      radius,
      thickness,
      p.shellType,
      if p.triangles < 6 then 6 else p.triangles,
      if lodsAtLeast > 5 then 5 else lodsAtLeast,
      if p.koeffLOD < 1.0 then 1.0 else p.koeffLOD)
  }

  /** Parameters already in range are left alone. */
  lemma ClampKeepsBounded(p: Parameters)
    requires Bounded(p)
    ensures Clamp(p) == p
  {
  }

  /** Clamping twice is clamping once. */
  lemma ClampIdempotent(p: Parameters)
    ensures Clamp(Clamp(p)) == Clamp(p)
  {
    ClampKeepsBounded(Clamp(p));
  }

  /** Parameters in range give the caps' texture ratio a nonzero
      denominator. */
  lemma BoundedOffsetDefined(p: Parameters)
    requires Bounded(p)
    ensures OffsetDefined(p.shellType, p.radius, p.thickness)
  {
  }

  // ---------------------------------------------------------------------
  // Levels of detail

  /** An accepted level: its number (named "lod" + level), its side count
      and the triangle count of its mesh. */
  datatype Lod = Lod(level: int, sides: int, trisCount: int)

  /** The sides a new level must beat: the last accepted level's, or the
      base tube's before any level is accepted. */
  function Watermark(lods: seq<Lod>, baseSides: int): int {
    if |lods| == 0 then baseSides else lods[|lods| - 1].sides
  }

  /** The levels the sweep accepts from the per-level triangle budgets:
      level i + 1 is planned for budget i and kept only when its side count
      is strictly below the watermark. */
  function Accepted(budgets: seq<int>, hasThickness: bool, samplesCount: int, baseSides: int): seq<Lod>
    requires samplesCount >= 2
    decreases |budgets|
  {
    if |budgets| == 0 then []
    else
      var prev := Accepted(budgets[..|budgets| - 1], hasThickness, samplesCount, baseSides);
      var ns := PolycountSides(budgets[|budgets| - 1], hasThickness, samplesCount);
      if ns < Watermark(prev, baseSides) then prev + [Lod(|budgets|, ns, TrianglesCount(ns, hasThickness, samplesCount))]
      else prev
  }

  /** The smallest side count seen so far: the base, then every level's
      planned count, accepted or not. */
  function RunningMin(budgets: seq<int>, hasThickness: bool, samplesCount: int, baseSides: int): (m: int)
    requires samplesCount >= 2
    ensures m <= baseSides
    ensures forall i :: 0 <= i < |budgets| ==> m <= PolycountSides(budgets[i], hasThickness, samplesCount)
    ensures m == baseSides || exists i :: 0 <= i < |budgets| && m == PolycountSides(budgets[i], hasThickness, samplesCount)
    decreases |budgets|
  {
    if |budgets| == 0 then baseSides
    else
      var init := budgets[..|budgets| - 1];
      var m := Min(RunningMin(init, hasThickness, samplesCount, baseSides),
                   PolycountSides(budgets[|budgets| - 1], hasThickness, samplesCount));
      assert forall i :: 0 <= i < |init| ==> budgets[i] == init[i];
      m
  }

  /** Accepted levels are numbered within 1 .. n, have at least 3 and
      fewer sides than the base, carry their tube's triangle count, and
      both the numbers and the side counts are strictly monotone. */
  ghost predicate LevelsOrdered(lods: seq<Lod>, hasThickness: bool, samplesCount: int, baseSides: int, n: int) {
    |lods| <= n
    && (forall i :: 0 <= i < |lods| ==>
          1 <= lods[i].level <= n && 3 <= lods[i].sides < baseSides
          && lods[i].trisCount == TrianglesCount(lods[i].sides, hasThickness, samplesCount))
    && (forall i, j :: 0 <= i < j < |lods| ==> lods[j].sides < lods[i].sides && lods[i].level < lods[j].level)
  }

  /** A watermark never exceeds the base, nor any ordered level's sides. */
  lemma WatermarkBelow(lods: seq<Lod>, hasThickness: bool, samplesCount: int, baseSides: int, n: int)
    requires LevelsOrdered(lods, hasThickness, samplesCount, baseSides, n)
    ensures Watermark(lods, baseSides) <= baseSides
    ensures forall i :: 0 <= i < |lods| ==> Watermark(lods, baseSides) <= lods[i].sides
  {
  }

  /** Appending a level numbered n + 1 below the watermark keeps the levels
      ordered. */
  lemma LevelsOrderedAppend(prev: seq<Lod>, lod: Lod, hasThickness: bool, samplesCount: int, baseSides: int, n: int)
    requires LevelsOrdered(prev, hasThickness, samplesCount, baseSides, n)
    requires lod.level == n + 1 && 3 <= lod.sides < Watermark(prev, baseSides)
    requires lod.trisCount == TrianglesCount(lod.sides, hasThickness, samplesCount)
    ensures LevelsOrdered(prev + [lod], hasThickness, samplesCount, baseSides, n + 1)
  {
    WatermarkBelow(prev, hasThickness, samplesCount, baseSides, n);
    var lods := prev + [lod];
    assert forall i :: 0 <= i < |prev| ==> lods[i] == prev[i];
  }

  /** The sweep only ever refines: at most one level per budget, each
      strictly coarser than the one before and than the base. */
  lemma {:induction false} AcceptedOrdered(budgets: seq<int>, hasThickness: bool, samplesCount: int, baseSides: int)
    requires samplesCount >= 2
    ensures LevelsOrdered(Accepted(budgets, hasThickness, samplesCount, baseSides),
                          hasThickness, samplesCount, baseSides, |budgets|)
  {
    if |budgets| > 0 {
      var init := budgets[..|budgets| - 1];
      AcceptedOrdered(init, hasThickness, samplesCount, baseSides);
      var prev := Accepted(init, hasThickness, samplesCount, baseSides);
      var ns := PolycountSides(budgets[|budgets| - 1], hasThickness, samplesCount);
      if ns < Watermark(prev, baseSides) {
        LevelsOrderedAppend(prev, Lod(|budgets|, ns, TrianglesCount(ns, hasThickness, samplesCount)),
                            hasThickness, samplesCount, baseSides, |init|);
      }
    }
  }

  /** The watermark is the running minimum of the planned side counts: a
      level is skipped exactly when its count does not beat every earlier
      one (and the base), and a skip leaves the watermark where it was. */
  lemma {:induction false} WatermarkIsRunningMin(budgets: seq<int>, hasThickness: bool, samplesCount: int, baseSides: int)
    requires samplesCount >= 2
    ensures Watermark(Accepted(budgets, hasThickness, samplesCount, baseSides), baseSides)
            == RunningMin(budgets, hasThickness, samplesCount, baseSides)
  {
    if |budgets| > 0 {
      WatermarkIsRunningMin(budgets[..|budgets| - 1], hasThickness, samplesCount, baseSides);
    }
  }

  /** One more budget appends a level exactly when the planned count is
      below the watermark, and otherwise changes nothing. */
  lemma AcceptedPrefixStep(budgets: seq<int>, i: int, hasThickness: bool, samplesCount: int, baseSides: int)
    requires samplesCount >= 2 && 0 <= i < |budgets|
    ensures var prev := Accepted(budgets[..i], hasThickness, samplesCount, baseSides);
            var ns := PolycountSides(budgets[i], hasThickness, samplesCount);
            Accepted(budgets[..i + 1], hasThickness, samplesCount, baseSides)
            == if ns < Watermark(prev, baseSides)
               then prev + [Lod(i + 1, ns, TrianglesCount(ns, hasThickness, samplesCount))]
               else prev
  {
    assert budgets[..i + 1][..i] == budgets[..i];
  }

  /** A level is skipped exactly when its planned count does not beat the
      watermark; a skip leaves the watermark where it was, an acceptance
      lowers it to the new level's sides. */
  lemma SkipKeepsWatermark(budgets: seq<int>, i: int, hasThickness: bool, samplesCount: int, baseSides: int)
    requires samplesCount >= 2 && 0 <= i < |budgets|
    ensures var prev := Accepted(budgets[..i], hasThickness, samplesCount, baseSides);
            var next := Accepted(budgets[..i + 1], hasThickness, samplesCount, baseSides);
            var ns := PolycountSides(budgets[i], hasThickness, samplesCount);
            (|next| == |prev| <==> ns >= Watermark(prev, baseSides))
            && Watermark(next, baseSides) == Min(ns, Watermark(prev, baseSides))
  {
    AcceptedPrefixStep(budgets, i, hasThickness, samplesCount, baseSides);
  }

  // ---------------------------------------------------------------------
  // The generator object

  /** `m` holds the complete tube the settings describe: buffers sized by
      the layout, every vertex, normal and texture coordinate the one the
      settings give its slot, and every index where the layout puts it,
      each naming one of the mesh's vertices. */
  ghost predicate HoldsTube(m: CustomMesh, st: TubeSettings, ops: Ops)
    reads m, m.vertices, m.normals, m.uv, m.triangles
  {
    st.sides >= 1 && |st.samples| >= 1
    && (st.hasThickness ==> OffsetDefined(st.shellType, st.radius, st.thickness))
    && m.Valid()
    && m.vertices.Length == MeshVertexCount(st.sides, |st.samples|, st.hasThickness)
    && m.triangles.Length == MeshIndexCount(st.sides, |st.samples|, st.hasThickness)
    && (forall k :: 0 <= k < m.vertices.Length ==>
          m.vertices[k] == MeshVertexOf(st, ops, k) && m.normals[k] == MeshNormalOf(st, ops, k)
          && m.uv[k] == MeshUVOf(st, ops, k))
    && (forall j :: 0 <= j < m.triangles.Length ==>
          m.triangles[j] == MeshIndex(st.sides, |st.samples|, st.hasThickness, j)
          && 0 <= m.triangles[j] < m.vertices.Length)
  }

  /** A fresh builder over the settings, run once: the mesh of the tube
      those settings describe, in new buffers. */
  method BuildTube(st: TubeSettings, ops: Ops) returns (m: CustomMesh)
    requires st.sides >= 1 && |st.samples| >= 1
    requires st.hasThickness ==> OffsetDefined(st.shellType, st.radius, st.thickness)
    ensures fresh(m) && HoldsTube(m, st, ops)
  {
    var builder := new MeshBuilder(st, ops);
    m := builder.Build();
  }

  class TubeGenerator {
    var points: seq<ControlPoint>
    var lods: seq<Lod>
    var parameterMode: ParameterMode
    var sides: int
    var radius: real
    var subdivision: int
    var triangles: int
    var numberLODs: int
    var koeffLOD: real
    var splineMode: SplineMode
    var hasThickness: bool
    var thickness: real
    var shellType: Shell
    const splines: TubeSplines
    const ops: Ops
    var tube: CustomMesh

    /** A generator over the given control points, with the inspector's
        default parameters. */
    constructor(points: seq<ControlPoint>, ops: Ops)
      ensures this.points == points && lods == [] && this.ops == ops
      ensures parameterMode == ByParameters && splineMode == Linear
      ensures Params() == Parameters(3, 1, 1.0, 0.1, Outward, 1000, 0, 1.0) && !hasThickness
      ensures fresh(splines) && splines.samples == []
      ensures fresh(tube) && tube.Valid()
    {
      this.points := points;
      lods := [];
      parameterMode := ByParameters;
      sides := 3;
      radius := 1.0;
      subdivision := 1;
      triangles := 1000;
      numberLODs := 0;
      koeffLOD := 1.0;
      splineMode := Linear;
      hasThickness := false;
      thickness := 0.1;
      shellType := Outward;
      splines := new TubeSplines();
      this.ops := ops;
      tube := new CustomMesh();
    }

    /** The clamped fields as one value. */
    function Params(): Parameters
      reads this
    {
      Parameters(sides, subdivision, radius, thickness, shellType, triangles, numberLODs, koeffLOD)
    }

    /** Brings every parameter into range; nothing else changes. */
    method CheckParametersBound()
      modifies this
      ensures Params() == Clamp(old(Params()))
      ensures unchanged(`points, `lods, `parameterMode, `splineMode, `hasThickness, `tube)
    {
      var clamped := Clamp(Params());
      sides, subdivision, radius, thickness := clamped.sides, clamped.subdivision, clamped.radius, clamped.thickness;
      triangles, numberLODs, koeffLOD := clamped.triangles, clamped.numberLODs, clamped.koeffLOD;
    }

    /** Triangles of the thinnest tube over the current samples: three
        sides. */
    function TrianglesCountMinimum(): (tris: int)
      reads this, splines
      ensures tris == TrianglesCount(3, hasThickness, |splines.samples|)
    {
      var wall := 3 * 2 * (|splines.samples| - 1);
      if hasThickness then wall * 2 + 3 * 2 * 2 else wall
    }

    /** Rebuilds the levels of detail from scratch. Level i + 1 is planned
        for levelBudgets[i] triangles and built only when it has strictly
        fewer sides than the last level built (at first, the tube itself). */
    method BuildLODs(levelBudgets: seq<int>)
      requires |levelBudgets| == Max(numberLODs, 0)
      requires numberLODs > 0 ==> |splines.samples| >= 2
      requires hasThickness ==> OffsetDefined(shellType, radius, thickness)
      modifies this
      ensures lods == (if |levelBudgets| == 0 then []
                       else Accepted(levelBudgets, hasThickness, |splines.samples|, sides))
      ensures unchanged(`points, `parameterMode, `splineMode, `hasThickness, `tube)
      ensures unchanged(`sides, `subdivision, `radius, `thickness, `shellType, `triangles, `numberLODs, `koeffLOD)
    {
      lods := [];
      if numberLODs == 0 {
        return;
      }
      var samples, thick, baseSides := splines.samples, hasThickness, sides;
      var sidesPrev := baseSides;
      var i := 0;
      while i < numberLODs
        invariant 0 <= i <= |levelBudgets|
        invariant lods == (if |levelBudgets| == 0 then [] else Accepted(levelBudgets[..i], thick, |samples|, baseSides))
        invariant sidesPrev == Watermark(lods, baseSides)
        invariant unchanged(`points, `parameterMode, `splineMode, `hasThickness, `tube)
        invariant unchanged(`sides, `subdivision, `radius, `thickness, `shellType, `triangles, `numberLODs, `koeffLOD)
        invariant hasThickness == thick && samples == splines.samples
      {
        var newsides := CalculateParametersByPolycount(levelBudgets[i], thick, |samples|);
        AcceptedPrefixStep(levelBudgets, i, thick, |samples|, baseSides);
        if newsides < sidesPrev {
          var tris := BuildLevel(newsides, samples);
          lods := lods + [Lod(i + 1, newsides, tris)];
          sidesPrev := newsides;
        }
        i := i + 1;
      }
      if |levelBudgets| > 0 {
        assert levelBudgets[..i] == levelBudgets;
      }
    }

    /** Builds the mesh of one level with `levelSides` sides and the other
        settings of the generator, and reports its triangle count. */
    method BuildLevel(levelSides: int, samples: seq<TubePoint>) returns (tris: int)
      requires levelSides >= 3 && |samples| >= 2
      requires hasThickness ==> OffsetDefined(shellType, radius, thickness)
      ensures tris == TrianglesCount(levelSides, hasThickness, |samples|)
    {
      var m := BuildTube(TubeSettings(levelSides, radius, hasThickness, thickness, shellType, samples), ops);
      TrianglesOfMesh(levelSides, hasThickness, |samples|);
      tris := m.triangles.Length / 3;
    }

    /** Resamples the curve through the control points. */
    method EvaluateSpline()
      requires subdivision >= 1 && (splineMode == Linear ==> |points| != 1)
      modifies splines
      ensures splines.samples == Sampled(points, splineMode, subdivision, ops)
    {
      splines.CalculateSamples(points, splineMode, subdivision, ops);
    }

    /** The state a rebuild leaves from parameters `p0` and tube `tube0`,
        for at least two control points: the parameters clamped, the curve
        resampled with the clamped subdivision and, when that gives two
        samples (which it always does), the sides planned for the triangle
        budget (ByPolyCount) or the triangles counted for the sides
        (ByParameters), and the tube built from the resulting settings. */
    ghost predicate Rebuilt(p0: Parameters, tube0: CustomMesh)
      reads this, splines, tube, tube.vertices, tube.normals, tube.uv, tube.triangles
    {
      var c := Clamp(p0);
      |points| >= 2
      && splines.samples == Sampled(points, splineMode, c.subdivision, ops)
      && (|splines.samples| < 2 ==> Params() == c && tube == tube0)
      && (|splines.samples| >= 2 ==>
            Params() == (if parameterMode == ByPolyCount
                         then c.(sides := PolycountSides(c.triangles, hasThickness, |splines.samples|))
                         else c.(triangles := TrianglesCount(c.sides, hasThickness, |splines.samples|)))
            && HoldsTube(tube, TubeSettings(sides, radius, hasThickness, thickness, shellType, splines.samples), ops)
            && (parameterMode == ByParameters ==> 3 * triangles == tube.triangles.Length))
    }

    /** Rebuilds the tube: nothing with fewer than two control points;
        otherwise clamps the parameters, resamples the curve, and (when the
        curve has two samples, which the sampler guarantees) either plans
        the sides for the triangle budget or counts the triangles of the
        chosen sides, and builds the mesh. */
    method RebuildMesh()
      modifies this, splines
      ensures unchanged(`points, `lods, `parameterMode, `splineMode, `hasThickness)
      ensures |points| < 2 ==> unchanged(this, splines)
      ensures |points| >= 2 ==> Rebuilt(old(Params()), old(tube))
    {
      if |points| < 2 {
        return;
      }
      CheckParametersBound();
      EvaluateSpline();
      if |splines.samples| < 2 {
        return;
      }
      BuildAndWrite();
    }

    /** The rest of a rebuild once the curve is sampled: plan the sides for
        the triangle budget (ByPolyCount) or count the triangles of the
        chosen sides (ByParameters), build the mesh over the samples with
        the current settings, and write it to the tube. */
    method BuildAndWrite()
      requires Bounded(Params()) && |splines.samples| >= 2
      modifies this
      ensures unchanged(`points, `lods, `parameterMode, `splineMode, `hasThickness)
      ensures Params() == (if parameterMode == ByPolyCount
                           then old(Params()).(sides := PolycountSides(old(triangles), hasThickness, |splines.samples|))
                           else old(Params()).(triangles := TrianglesCount(old(sides), hasThickness, |splines.samples|)))
      ensures HoldsTube(tube, TubeSettings(sides, radius, hasThickness, thickness, shellType, splines.samples), ops)
      ensures parameterMode == ByParameters ==> 3 * triangles == tube.triangles.Length
    {
      BoundedOffsetDefined(Params());
      var samples := splines.samples;
      if parameterMode == ByPolyCount {
        sides := CalculateParametersByPolycount(triangles, hasThickness, |samples|);
      } else {
        triangles := TrianglesCount(sides, hasThickness, |samples|);
      }
      var m := BuildTube(TubeSettings(sides, radius, hasThickness, thickness, shellType, samples), ops);
      tube := m;
    }

    /** Drops the last control point and rebuilds the tube over the rest,
        unless only two are left: the list never shrinks below two points. */
    method RemoveLastPoint()
      modifies this, splines
      ensures unchanged(`lods, `parameterMode, `splineMode, `hasThickness)
      ensures old(|points|) <= 2 ==> unchanged(this) && unchanged(splines)
      ensures old(|points|) > 2 ==> points == old(points[..|points| - 1]) && Rebuilt(old(Params()), old(tube))
      ensures old(|points|) >= 2 ==> |points| >= 2
    {
      if |points| <= 2 {
        return;
      }
      points := points[..|points| - 1];
      RebuildMesh();
    }
  }
}
