# TubeGenerator in Dafny

A model of the core of TubeGenerator, a Unity editor tool that sweeps a
polygonal ring along a curve through control points and produces a tube
mesh. The core has three parts, and each becomes one Dafny module.

- **The sampler** (`TubeSplines`). It turns the control points into an
  ordered list of curve samples. Each sample has a position, a direction and
  a right vector. The sampler has two modes:
  - a cubic Hermite spline with Catmull-Rom style tangents;
  - a polyline that keeps each control point and inserts evenly spaced
    points between neighbours.
- **The mesh builder** (`MeshBuilder`). It fills the buffers of a
  `CustomMesh` in place: vertices, normals, texture coordinates and triangle
  indices. It emits a ring of `sides + 1` vertices per sample, with quads
  between consecutive rings. With thickness, it also adds an inner wall
  (the outer wall's triangles, reversed and moved) and two annular caps.
- **The generator** (`TubeGenerator`). It does four things:
  - clamps the user parameters;
  - resamples the curve;
  - either plans the number of sides for a triangle budget or counts the
    triangles for the chosen sides;
  - builds the tube and its levels of detail, keeping only levels that are
    strictly coarser than the last one kept.

The modules are:

- `Geometry`: vectors over the reals. Normalisation and angle-axis
  rotation are opaque functions carried in `Ops`.
- `TubePoints`: samples and control points.
- `IntMath`: C# truncating division and small division facts.
- `Splines`: the sampler.
- `MeshLayout`: the closed-form index layout of the finished mesh.
- `Mesh`: the builder, as a class over arrays.
- `Generator`: the planner, the clamps, the level-of-detail sweep and the
  generator class.

Imperative code stays imperative:

- The builder's loops over the mesh arrays are methods with loop invariants.
  Each method is proved against a closed-form description of the slot it
  fills.
- The sampler appends to its sample list, which is a `seq` field. Each
  append is proved equal to a recursive definition of the samples.
- The generator's clamp and planner loops are methods proved equal to pure
  functions. Their properties are then proved as lemmas about those
  functions.

## Model

| member | source | states |
|---|---|---|
| Splines.HermiteEnds | Assets/Scripts/TubeSplines.cs:85-102 | `InterpolateWithTangent`, the overload with an `out` tangent, returns (start, first tangent argument) at t = 0 and (end, second tangent argument) at t = 1: a segment starts at the start point heading along the first tangent argument (t = 0), and ends at the end point heading along the second (t = 1). |
| Splines.StartPoint | Assets/Scripts/TubeSplines.cs:94-102 | At t = 0 the Hermite curve is at the start point. |
| Splines.EndPoint | Assets/Scripts/TubeSplines.cs:94-102 | At t = 1 the Hermite curve is at the end point. |
| Splines.StartHeading | Assets/Scripts/TubeSplines.cs:85-92 | At t = 0 the tangent that `InterpolateWithTangent` returns equals the first tangent argument. |
| Splines.EndHeading | Assets/Scripts/TubeSplines.cs:85-92 | At t = 1 the tangent that `InterpolateWithTangent` returns equals the second tangent argument. |
| Splines.TangentIsDerivative | Assets/Scripts/TubeSplines.cs:87-99 | Each tangent coefficient is the derivative of the matching basis polynomial: the difference quotient equals the coefficient up to an O(e) remainder. |
| Splines.StartTangentChords | Assets/Scripts/TubeSplines.cs:40-47 | The start tangent is the first chord on the first segment, and the average of the chords into and out of the point elsewhere. |
| Splines.EndTangentChords | Assets/Scripts/TubeSplines.cs:50-57 | The end tangent is the average of the chords into and out of the segment's end point, and the segment's own chord on the last segment. |
| Splines.TangentContinuity | Assets/Scripts/TubeSplines.cs:40-57 | A segment's end tangent equals the next segment's start tangent, so the curve is C1 at every inner control point. |
| Splines.ParamLayout | Assets/Scripts/TubeSplines.cs:32-69 | Each segment starts at t = 0, and t strictly increases inside a segment. Every t lies in [0, 1]. t is 1 exactly at the last sample of the last segment, whose step is 1/subdiv. |
| Splines.SplineSegmentAt | Assets/Scripts/TubeSplines.cs:67-81 | One segment yields subdiv + 1 samples, and sample j is the Hermite point at the j-th parameter. |
| Splines.SplinePrefixLength | Assets/Scripts/TubeSplines.cs:34-82 | After i segments, the spline list holds i * (subdiv + 1) samples. |
| Splines.SplinePrefixAt | Assets/Scripts/TubeSplines.cs:34-82 | Sample q * (subdiv + 1) + j of the first i segments is sample j of segment q. |
| Splines.SplineLayout | Assets/Scripts/TubeSplines.cs:25-83 | The full spline list has (n - 1) * (subdiv + 1) samples, and sample i * (subdiv + 1) + j is sample j of segment i. |
| Splines.SplineStartsAtFirstPoint | Assets/Scripts/TubeSplines.cs:36-81 | Each segment's first sample sits on its control point, with the segment's start tangent as direction. |
| Splines.SplineEndsAtLastPoint | Assets/Scripts/TubeSplines.cs:62-65 | The last spline sample sits on the last control point, with the last segment's end tangent as direction. |
| Splines.MainSample | Assets/Scripts/TubeSplines.cs:106-138 | Control point k's sample sits at the point's position with a zero normal, is flagged as a point, and its right vector is the normalised cross product of the point's up vector and its direction. |
| Splines.LinearDoneStep | Assets/Scripts/TubeSplines.cs:140-168 | Each pass of the second loop appends one segment: the main sample plus the in-between samples, or the last main sample alone. |
| Splines.LinearPrefixLength | Assets/Scripts/TubeSplines.cs:147-167 | After i segments, the polyline list holds i * subdiv samples. |
| Splines.LinearPrefixAt | Assets/Scripts/TubeSplines.cs:147-167 | Sample q * subdiv + r of the first i segments is slot r of segment q: the main sample when r = 0, otherwise in-between sample r - 1. |
| Splines.LinearOriginalAt | Assets/Scripts/TubeSplines.cs:129-149 | The polyline has (n - 1) * subdiv + 1 samples, and sample k * subdiv is control point k's own sample: at its position and flagged as a point. |
| Splines.LinearBetweenAt | Assets/Scripts/TubeSplines.cs:151-165 | In-between sample j after point i lies at p_i + (j + 1) * (p_{i+1} - p_i) / subdiv and is not flagged as a point. |
| Splines.LinearTwoPoints | Assets/Scripts/TubeSplines.cs:104-169 | Two points with subdivision 1 give exactly those two points. |
| Splines.AtLeastTwoSamples | Assets/Scripts/TubeSplines.cs:11-23 | From two control points on, either mode yields at least two samples. |
| Splines.TubeSplines.constructor | Assets/Scripts/TubeSplines.cs:9 | A new sampler holds no samples. |
| Splines.TubeSplines.CalculateSamples | Assets/Scripts/TubeSplines.cs:11-23 | The sample list is cleared, then becomes exactly the spline or polyline samples of the chosen mode. |
| Splines.TubeSplines.CalculateSpline | Assets/Scripts/TubeSplines.cs:25-83 | Appends exactly the spline samples to the list. |
| Splines.TubeSplines.AppendSegment | Assets/Scripts/TubeSplines.cs:67-81 | The inner loop appends one segment's Hermite samples, in order. |
| Splines.TubeSplines.CalculateLine | Assets/Scripts/TubeSplines.cs:104-169 | Appends exactly the polyline samples to the list. |
| Splines.TubeSplines.AppendLinearSegment | Assets/Scripts/TubeSplines.cs:147-167 | Appends control point i's sample, then its subdiv - 1 in-between samples. |
| Splines.TubeSplines.ControlSamples | Assets/Scripts/TubeSplines.cs:106-138 | The first loop builds one sample per control point, heading along the neighbouring segments. |
| Splines.TubeSplines.AppendSteps | Assets/Scripts/TubeSplines.cs:155-166 | The in-between loop appends count points, stepping from the origin along dir. |
| MeshLayout.WallIndexAt | Assets/Scripts/MeshBuilder.cs:353-359 | Index 6k + c of a wall is corner c of quad k, whose lower-left vertex is FaceBase(k). |
| MeshLayout.WallQuadEntries | Assets/Scripts/MeshBuilder.cs:353-359 | The six indices written for one face are the two triangles (f, f+1, f+g) and (f+1, f+g+1, f+g), where g = sides + 1. |
| MeshLayout.FaceBaseRing | Assets/Scripts/MeshBuilder.cs:349-351 | Quad k starts on ring k / sides at position k % sides, never on a ring's last (seam) vertex. |
| MeshLayout.FaceAdvance | Assets/Scripts/MeshBuilder.cs:349-351 | The body loop's cursor step, including the skip over the seam vertex, moves from quad k to quad k + 1. |
| MeshLayout.FaceLoopBound | Assets/Scripts/MeshBuilder.cs:346-349 | The loop bound nbFaces + samples - 2 stops after exactly sides * (samples - 1) quads, and every quad index is inside the wall. |
| MeshLayout.MirrorTriple | Assets/Scripts/MeshBuilder.cs:192-197 | The mirror reverses each triangle's three corners. |
| MeshLayout.MirrorSplit | Assets/Scripts/MeshBuilder.cs:192-197 | Mirroring keeps an index inside its quad's block of six. |
| MeshLayout.MirrorInRange | Assets/Scripts/MeshBuilder.cs:189-192 | Mirrored entries read only the first half of the index buffer. |
| MeshLayout.MirrorRange | Assets/Scripts/MeshBuilder.cs:189-197 | For every index of the first half, its mirror also lies in the first half. |
| MeshLayout.StartCapQuad | Assets/Scripts/MeshBuilder.cs:320-326 | A start-cap face is two triangles over exactly the four corners of one quad between the two start rings, sharing the diagonal walked in opposite directions. |
| MeshLayout.EndCapQuad | Assets/Scripts/MeshBuilder.cs:332-338 | An end-cap face is two triangles over exactly the four corners of one quad between the two end rings, sharing the diagonal walked in opposite directions. |
| MeshLayout.CapWinding | Assets/Scripts/MeshBuilder.cs:314-339 | Each end-cap index is the mirrored start-cap index moved by two rings, so the two caps face opposite ways. |
| MeshLayout.CapIndexRange | Assets/Scripts/MeshBuilder.cs:318-339 | Start-cap triangles use only the start cap's two rings, and end-cap triangles only the end cap's two rings. |
| MeshLayout.CapsIndexRange | Assets/Scripts/MeshBuilder.cs:314-342 | Every cap index addresses one of the four cap rings. |
| MeshLayout.WallIndexRange | Assets/Scripts/MeshBuilder.cs:344-363 | Every wall index addresses a vertex of that wall. |
| MeshLayout.OuterBlockRange | Assets/Scripts/MeshBuilder.cs:85 | Indices of the outer wall address outer-wall vertices. |
| MeshLayout.InnerBlockRange | Assets/Scripts/MeshBuilder.cs:189-197 | Indices of the inner wall address inner-wall vertices. |
| MeshLayout.CapBlockRange | Assets/Scripts/MeshBuilder.cs:314-342 | Cap indices address cap vertices. |
| MeshLayout.CapBlockEntry | Assets/Scripts/MeshBuilder.cs:266-312 | The caps add 4 * (sides + 1) vertices and 12 * sides indices after the body, and their indices follow the cap layout. |
| MeshLayout.MeshIndexRange | Assets/Scripts/MeshBuilder.cs:75-95 | Every index of the finished mesh addresses one of its vertices. |
| Mesh.CustomMesh.constructor | Assets/Scripts/MeshBuilder.cs:17-23 | A new mesh has four empty, consistent buffers. |
| Mesh.Grow | Assets/Scripts/MeshBuilder.cs:273-309 | A grown buffer has the new size and keeps every old entry. |
| Mesh.MirrorStep | Assets/Scripts/MeshBuilder.cs:192-197 | One pass of MakeInnerSide's loop writes one reversed, moved triangle and leaves the rest unchanged. |
| Mesh.InnerSide | Assets/Scripts/MeshBuilder.cs:187-198 | The mirrored buffer has the same length as the original. |
| Mesh.InnerSideDone | Assets/Scripts/MeshBuilder.cs:192-197 | When the loop finishes, the buffer is exactly InnerSide of the original. |
| Mesh.MeshBuilder.constructor | Assets/Scripts/MeshBuilder.cs:65-73 | The builder takes its settings unchanged, with zero counts and a fresh, empty mesh. |
| Mesh.MeshBuilder.OffsetsAgree | Assets/Scripts/MeshBuilder.cs:153-185 | Without thickness both walls sit at the radius. With thickness the walls are `thickness` apart, and the caps' texture ratio is the inner offset over the outer one. |
| Mesh.ThicknessOffset | Assets/Scripts/MeshBuilder.cs:153-169 | Without thickness a wall sits at the radius; with thickness an inward shell keeps the outer wall at the radius and puts the inner wall `thickness` inside it, and an outward shell keeps the inner wall at the radius and puts the outer wall `thickness` outside it. |
| Mesh.CapsVertexOffsetOf | Assets/Scripts/MeshBuilder.cs:171-185 | The caps' texture ratio times the outer wall's offset is the inner wall's offset. |
| Mesh.WallSlotRing | Assets/Scripts/MeshBuilder.cs:126-132 | Wall slot j belongs to an existing ring j / (sides + 1). |
| Mesh.MeshBuilder.WallSlot | Assets/Scripts/MeshBuilder.cs:124-151 | Slot r * (sides + 1) + i of a wall holds vertex i of ring r. |
| Mesh.CapSlotOf | Assets/Scripts/MeshBuilder.cs:208-261 | For any thick settings, cap slot 2w + ring·g + i lies after both walls and holds vertex i of the first or last ring of the outer or inner wall, with the cap's normal and texture coordinate. |
| Mesh.MeshBuilder.CapRingSlot | Assets/Scripts/MeshBuilder.cs:208-261 | Cap ring slots lie after both walls and hold the vertex of the body ring they copy, with the cap's normal and texture coordinate. |
| Mesh.MeshBuilder.CapRingBounds | Assets/Scripts/MeshBuilder.cs:208-261 | Each cap ring copies from inside the body and writes inside the cap area. |
| Mesh.MeshBuilder.CapSlot | Assets/Scripts/MeshBuilder.cs:208-261 | Cap slot start + i repeats body slot from + i, with the cap's normal and texture coordinate. |
| Mesh.MeshBuilder.CapRingSourceSlot | Assets/Scripts/MeshBuilder.cs:211-252 | The four cap rings copy the first outer, first inner, last outer and last inner body rings. |
| Mesh.MeshBuilder.CapSlotCopy | Assets/Scripts/MeshBuilder.cs:208-261 | One cap-ring write extends the matched prefix by one slot. |
| Mesh.MeshBuilder.WallsMatch | Assets/Scripts/MeshBuilder.cs:81-83 | Writing the outer wall, and the inner wall after it, matches every body slot. |
| Mesh.MeshBuilder.InnerWallIndices | Assets/Scripts/MeshBuilder.cs:187-198 | After mirroring, the second half of the index buffer is the inner wall's layout. |
| Mesh.MeshBuilder.Build | Assets/Scripts/MeshBuilder.cs:75-95 | The finished mesh has the layout's sizes; every vertex, normal and texture coordinate is the one the layout assigns; every index is the layout's and addresses a vertex. |
| Mesh.MeshBuilder.MeshComplete | Assets/Scripts/MeshBuilder.cs:75-95 | Fully matched buffers give the slot-by-slot postcondition of Build. |
| Mesh.MeshBuilder.GenerateBody | Assets/Scripts/MeshBuilder.cs:77-85 | After sizing and writing the walls and their triangles, the body slots and body indices match the layout. |
| Mesh.MeshBuilder.GenerateWalls | Assets/Scripts/MeshBuilder.cs:81-83 | The outer wall, and the inner wall when there is thickness, fill every vertex slot as laid out. |
| Mesh.MeshBuilder.GenerateWallTriangles | Assets/Scripts/MeshBuilder.cs:85-90 | The body triangles, mirrored for the inner wall when there is thickness, fill the index buffer as laid out. |
| Mesh.MeshBuilder.CalculateTriangleComponents | Assets/Scripts/MeshBuilder.cs:97-107 | The body counts are (sides + 1) * samples vertices and 6 * sides * (samples - 1) indices, both doubled with thickness. |
| Mesh.MeshBuilder.AllocateMesh | Assets/Scripts/MeshBuilder.cs:109-122 | Buffers are resized to the requested sizes; a buffer that already has the requested size is kept as it was. |
| Mesh.MeshBuilder.GenerateVertices | Assets/Scripts/MeshBuilder.cs:124-151 | Writes one whole wall from vertexIndex on, advances the cursor by (sides + 1) * samples, and leaves every other slot unchanged. |
| Mesh.MeshBuilder.GenerateRing | Assets/Scripts/MeshBuilder.cs:132-149 | Writes the sides + 1 vertices of ring i, with position, normal and texture coordinate, and leaves every other slot unchanged. |
| Mesh.MeshBuilder.GenerateBodyPlaneTriangles | Assets/Scripts/MeshBuilder.cs:344-363 | The first wall-index-count entries are the wall layout, and the rest are unchanged. |
| Mesh.MeshBuilder.MakeInnerSide | Assets/Scripts/MeshBuilder.cs:187-198 | The index buffer becomes InnerSide of itself: the first half's triangles, reversed and moved by half the vertex count. |
| Mesh.MeshBuilder.AllocateMeshForCaps | Assets/Scripts/MeshBuilder.cs:266-312 | The buffers grow by the caps' counts and every body entry is copied over. |
| Mesh.MeshBuilder.GenerateCaps | Assets/Scripts/MeshBuilder.cs:200-264 | After the caps are added, the buffers have the full thick-tube sizes and every slot and index matches the layout. |
| Mesh.MeshBuilder.FillCapRing | Assets/Scripts/MeshBuilder.cs:208-261 | One cap ring copies its body ring's vertices, with the cap's normal and texture coordinates; every slot after the ring keeps its old vertex, normal and texture coordinate. |
| Mesh.MeshBuilder.GenerateCapsPlaneTriangles | Assets/Scripts/MeshBuilder.cs:314-342 | The cap indices after the body are written as the cap layout. |
| Mesh.MeshBuilder.StartCapTriangles | Assets/Scripts/MeshBuilder.cs:318-327 | Writes 6 * sides start-cap indices and leaves the rest unchanged. |
| Mesh.MeshBuilder.EndCapTriangles | Assets/Scripts/MeshBuilder.cs:329-339 | Writes 6 * sides end-cap indices and leaves the rest unchanged. |
| Mesh.WriteQuad | Assets/Scripts/MeshBuilder.cs:320-326 | Writes six given indices at t and leaves every other entry unchanged. |
| Generator.TrianglesCount | Assets/Scripts/TubeGenerator.cs:319-332 | The triangle count is exactly a third of the index count the builder writes. |
| Generator.TrianglesOfMesh | Assets/Scripts/TubeGenerator.cs:57 | A built mesh's index count divided by 3 is the planned triangle count. |
| Generator.PolycountSides | Assets/Scripts/TubeGenerator.cs:314 | The planned side count is at least 3. |
| Generator.CalculateParametersByPolycount | Assets/Scripts/TubeGenerator.cs:300-317 | The halving and decrement loop returns exactly the closed-form side count. |
| Generator.ThinRoundTrip | Assets/Scripts/TubeGenerator.cs:300-332 | Without thickness, planning for the triangles of an s-sided tube (s >= 3) gives back s. |
| Generator.ThickCapsFit | Assets/Scripts/TubeGenerator.cs:303-312 | With thickness, a count above 3 leaves room for the caps, and it is the largest such count not above the halved guess. |
| Generator.ThickRoundTripDiffers | Assets/Scripts/TubeGenerator.cs:303-311 | With thickness the round trip fails: 4 sides over 3 samples give 48 triangles, and 48 triangles plan back to 6 sides. |
| Generator.ThickBudgetExceeded | Assets/Scripts/TubeGenerator.cs:303-311 | With thickness the plan can overshoot the budget: 1000 triangles give 125 sides, whose tube has 1500 triangles. |
| Generator.Clamp | Assets/Scripts/TubeGenerator.cs:350-371 | Clamped parameters are always in range. |
| Generator.ClampKeepsBounded | Assets/Scripts/TubeGenerator.cs:350-371 | In-range parameters are left unchanged. |
| Generator.ClampIdempotent | Assets/Scripts/TubeGenerator.cs:350-371 | Clamping twice is the same as clamping once. |
| Generator.BoundedOffsetDefined | Assets/Scripts/MeshBuilder.cs:171-185 | In-range parameters keep the caps' texture ratio free of a division by zero. |
| Generator.RunningMin | Assets/Scripts/TubeGenerator.cs:208-237 | The running minimum lies below the base sides and below every planned level, and equals the base sides or one of the planned levels. |
| Generator.WatermarkBelow | Assets/Scripts/TubeGenerator.cs:214-236 | The current sidesPrev lies below the base sides and below every accepted level. |
| Generator.LevelsOrderedAppend | Assets/Scripts/TubeGenerator.cs:214-236 | Appending a level that beats sidesPrev keeps the levels strictly decreasing in sides, numbered and counted correctly. |
| Generator.AcceptedOrdered | Assets/Scripts/TubeGenerator.cs:208-242 | Accepted levels have strictly decreasing side counts, all below the base and at least 3. Each level's triangle count matches its sides, and levels are numbered in increasing order. |
| Generator.WatermarkIsRunningMin | Assets/Scripts/TubeGenerator.cs:208-242 | After the sweep, sidesPrev is the minimum of the base and every planned side count. |
| Generator.AcceptedPrefixStep | Assets/Scripts/TubeGenerator.cs:213-241 | One more budget appends a level exactly when its sides beat sidesPrev, and otherwise changes nothing. |
| Generator.SkipKeepsWatermark | Assets/Scripts/TubeGenerator.cs:214-241 | A level is skipped if and only if its sides do not beat sidesPrev; the new sidesPrev is the smaller of the two. |
| Generator.BuildTube | Assets/Scripts/TubeGenerator.cs:285-295 | A fresh builder gives a fresh mesh holding, slot by slot, every vertex, normal, texture coordinate and index that those settings (sides, radius, thickness, shell type, samples) give. |
| Generator.TubeGenerator.constructor | Assets/Scripts/TubeGenerator.cs:8-35 | A generator starts with the inspector defaults: 3 sides, subdivision 1, radius 1, thickness 0.1, 1000 triangles, no levels, factor 1. |
| Generator.TubeGenerator.CheckParametersBound | Assets/Scripts/TubeGenerator.cs:350-371 | The parameters become Clamp of the old ones, and nothing else changes. |
| Generator.TubeGenerator.TrianglesCountMinimum | Assets/Scripts/TubeGenerator.cs:334-348 | The minimum is the triangle count of a 3-sided tube over the current samples. |
| Generator.TubeGenerator.BuildLevel | Assets/Scripts/TubeGenerator.cs:216-226 | A level's mesh, built with the level's sides and the generator's other settings, has the triangle count the planner's formula gives for those sides. |
| Generator.TubeGenerator.BuildLODs | Assets/Scripts/TubeGenerator.cs:197-243 | The old levels are cleared; the new list is exactly the accepted sweep over the level budgets, from the tube's own sides; the parameters are unchanged. |
| Generator.TubeGenerator.EvaluateSpline | Assets/Scripts/TubeGenerator.cs:373-376 | The samples become those of the current mode and subdivision. |
| Generator.TubeGenerator.RebuildMesh | Assets/Scripts/TubeGenerator.cs:266-298 | With fewer than two points nothing changes. Otherwise: parameters are clamped; the curve is resampled; sides are planned (ByPolyCount) or triangles counted (ByParameters); the tube holds, slot by slot, the mesh of the settings it now stores (sides, radius, thickness, shell type) over the new samples. |
| Generator.TubeGenerator.BuildAndWrite | Assets/Scripts/TubeGenerator.cs:276-297 | Over the current samples: sides are planned from the triangle budget (ByPolyCount) or triangles counted from the sides (ByParameters), nothing else among the parameters changes, and the tube holds, slot by slot, the mesh of the stored settings; in ByParameters mode the triangle count is a third of the built index buffer. |
| Generator.TubeGenerator.RemoveLastPoint | Assets/Scripts/TubeGenerator.cs:185-195 | With two points or fewer nothing changes. Otherwise the last point is dropped and the tube is rebuilt over the rest exactly as RebuildMesh promises. At least two points always remain. |

## Left out

- Unity plumbing is not modelled:
  - `TubeObject` and the copy into a Unity `Mesh`, including `CustomMesh.WriteMesh`, its 65000-vertex guard, normal recalculation and optimisation. The generator's `tube` field stands for the mesh last written.
  - Game-object creation and `CreateTubeGameObject`, `AddTubePoint`, `GetLODInfo`, `GetSamplesCount`, `SetTrianglesCount`.
  - Destroying game objects in `ClearLODs` and `RemoveLastPoint`.
  - Undo and the editor scripts.
- Floating point is modelled as exact reals. Normalisation and angle-axis rotation are opaque functions in `Ops`, so the facts about positions, normals and texture coordinates state which values land in which slot, not their numeric values.
- Generator.TubeGenerator.BuildLODs: the per-level budget `(int)(triangles / (koeffLOD * (i + 1)))` is a float computation. It is passed in as `levelBudgets`. Each accepted level is recorded as a `Lod` value (level, sides, triangle count) instead of a game object.
- Generator.TubeGenerator.BuildLODs: the model requires at least two samples when levels are requested. With one sample the source's planner divides by zero. With zero samples it divides by -1 and returns 3 or more sides; a level below the current sides then asks `MeshBuilder` for an index buffer of negative length (MeshBuilder.cs:100, 120), which throws, and with 3 current sides every level is skipped and no level is built. It also requires a nonzero cap-texture denominator, which the clamps guarantee after a rebuild.
- Generator.TubeGenerator.EvaluateSpline: the source calls a three-argument `CalculateSpline` that `TubeSplines` does not declare. The model reads it as the mode dispatch `CalculateSamples`.
- Splines.TubeSplines.CalculateLine: the model requires that the point count is not 1, because with one point the source reads past the end of the point list.
- `TubePoint.normal` is never assigned, so it holds the zero vector. The `IsPoint` flag that the sampler sets is not declared in `TubePoint.cs`; it is modelled as a field.
- Mesh.MeshBuilder.GenerateBodyPlaneTriangles: the seam test uses floating-point `%` on small integers. It is modelled as integer remainder.
- Generator.PolycountSides: with thickness the planned mesh can have more triangles than the budget. ThickBudgetExceeded shows such a case. The model proves that the caps fit (ThickCapsFit), not that the whole tube fits.
- Generator.TrianglesCount, MeshLayout.BodyVertexCount and the other counts are unbounded integers. The source computes triangle and vertex counts in 32-bit `int` (TubeGenerator.cs:321, MeshBuilder.cs:99-100), and no clamp bounds the sides from above, so a very large side or sample count wraps around there. The model does not capture that wrap-around.
- Generator.TubeGenerator.BuildLODs: the warning logged for a skipped level (TubeGenerator.cs:240) is not modelled; a skipped level simply adds no `Lod`.
- Generator.TubeGenerator.RebuildMesh: in ByPolyCount mode the stored triangle budget is not updated to the built mesh's count, as in the source. So the triangle-count equation is stated for ByParameters only.
