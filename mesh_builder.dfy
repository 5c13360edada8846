/** The mesh builder: sweeps a ring of sides + 1 vertices along the curve
    samples, fills the vertex, normal, texture-coordinate and index buffers
    of a `CustomMesh` in place, and (with thickness) adds an inner wall and
    two annular caps. Positions, normals and texture coordinates come from
    the opaque `ops`; what is proved about them is which values land in
    which slot. The index buffer is proved equal, entry by entry, to
    `MeshLayout.MeshIndex`. */
module Mesh {
  import opened Geometry
  import opened TubePoints
  import opened MeshLayout
  import IntMath

  /** Which way a thick wall grows from the nominal radius. */
  datatype Shell = Outward | Inward

  /** What the generator hands to a builder. */
  datatype TubeSettings = TubeSettings(
    sides: int,
    radius: real,
    hasThickness: bool,
    thickness: real,
    shellType: Shell,
    samples: seq<TubePoint>)

  /** The engine-independent mesh: four parallel buffers. */
  class CustomMesh {
    var vertices: array<Vec3>
    var normals: array<Vec3>
    var uv: array<Vec2>
    var triangles: array<int>

    constructor()
      ensures Valid() && vertices.Length == 0 && triangles.Length == 0
      ensures fresh(vertices) && fresh(normals) && fresh(uv) && fresh(triangles)
    {
      vertices := new Vec3[0];
      normals := new Vec3[0];
      uv := new Vec2[0];
      triangles := new int[0];
    }

    /** The per-vertex buffers are distinct and equally long. */
    ghost predicate Valid()
      reads this
    {
      vertices != normals && normals.Length == vertices.Length && uv.Length == vertices.Length
    }
  }

  /** A buffer of `size` entries whose first entries copy `src`; the copy
      loops of AllocateMeshForCaps. */
  method Grow<T(0)>(src: array<T>, size: int) returns (dst: array<T>)
    requires src.Length <= size
    ensures fresh(dst) && dst.Length == size
    ensures forall k :: 0 <= k < src.Length ==> dst[k] == src[k]
  {
    dst := new T[size];
    var i := 0;
    while i < src.Length
      invariant 0 <= i <= src.Length
      invariant forall k :: 0 <= k < i ==> dst[k] == src[k]
    {
      dst[i] := src[i];
      i := i + 1;
    }
  }

  /** The wall offset the caps' texture ratio divides by is nonzero: the
      radius for an inward shell, radius + thickness for an outward one. */
  predicate OffsetDefined(shellType: Shell, radius: real, thickness: real) {
    match shellType
    case Inward => radius != 0.0
    case Outward => radius + thickness != 0.0
  }

  /** `cur` is the index buffer `t0` after the first i entries of its
      second half were written as the first half's triangles reversed and
      moved by vh vertices; every other entry is as in t0. */
  ghost predicate InnerSideUpTo(cur: seq<int>, t0: seq<int>, half: int, vh: int, i: int) {
    |cur| == |t0| && 0 <= i <= half && 2 * half <= |t0|
    && (forall j :: 0 <= j < half ==> cur[j] == t0[j])
    && (forall j :: half <= j < half + i ==>
          0 <= MirrorSource(j - half) < half && cur[j] == t0[MirrorSource(j - half)] + vh)
    && (forall j :: half + i <= j < |cur| ==> cur[j] == t0[j])
  }

  /** One pass of MakeInnerSide's loop: triangle i of the first half,
      reversed and moved, lands on entries half + i .. half + i + 2. */
  lemma MirrorStep(cur: seq<int>, next: seq<int>, t0: seq<int>, half: int, vh: int, i: int)
    requires InnerSideUpTo(cur, t0, half, vh, i)
    requires i % 3 == 0 && half % 3 == 0 && i < half
    requires next == cur[half + i + 2 := cur[i] + vh][half + i + 1 := cur[i + 1] + vh][half + i := cur[i + 2] + vh]
    ensures InnerSideUpTo(next, t0, half, vh, i + 3) && (i + 3) % 3 == 0
  {
    MirrorTriple(i);
    MirrorRange(half);
  }

  /** The index buffer t0 after MakeInnerSide: entry half + m of its second
      half is entry MirrorSource(m) of the first half moved by vh vertices,
      so each triangle of the first half reappears with its corners
      reversed; the first half, and a last entry of an odd-length buffer,
      stay as they were. */
  function InnerSide(t0: seq<int>, vh: int): (r: seq<int>)
    requires (|t0| / 2) % 3 == 0
    ensures |r| == |t0|
  {
    var half := |t0| / 2;
    MirrorRange(half);
    seq(|t0|, j requires 0 <= j < |t0| => if half <= j < 2 * half then t0[MirrorSource(j - half)] + vh else t0[j])
  }

  /** When the loop has written the whole second half, the buffer is
      InnerSide of what it was. */
  lemma InnerSideDone(cur: seq<int>, t0: seq<int>, vh: int)
    requires (|t0| / 2) % 3 == 0 && InnerSideUpTo(cur, t0, |t0| / 2, vh, |t0| / 2)
    ensures cur == InnerSide(t0, vh)
  {
  }

  /** The first slot of the body ring that cap ring `ring` copies, when the
      body holds `bodyVertexCount` vertices (the outer wall, then the inner
      one): first outer ring, first inner ring, last outer ring, last inner
      ring. */
  function CapRingSource(sides: int, bodyVertexCount: int, ring: int): int {
    var g := sides + 1;
    if ring == 0 then 0
    else if ring == 1 then bodyVertexCount / 2
    else if ring == 2 then bodyVertexCount / 2 - g
    else bodyVertexCount - g
  }

  // ---------------------------------------------------------------------
  // What each slot of the vertex buffers receives, for given settings

  /** Distance of a wall's vertices from the curve. Without thickness it is
      the radius. With thickness the nominal radius is one of the two
      walls (the outer one of an inward shell, the inner one of an outward
      shell) and the other wall lies `thickness` further out or in. */
  function ThicknessOffset(st: TubeSettings, outer: bool): (r: real)
    ensures !st.hasThickness ==> r == st.radius
    ensures st.hasThickness ==>
              r == st.radius || r == (if outer then st.radius + st.thickness else st.radius - st.thickness)
    ensures st.hasThickness && st.shellType == Inward ==>
              (outer ==> r == st.radius) && (!outer ==> r + st.thickness == st.radius)
    ensures st.hasThickness && st.shellType == Outward ==>
              (outer ==> r == st.radius + st.thickness) && (!outer ==> r == st.radius)
  {
    if !st.hasThickness then st.radius
    else match st.shellType
      case Inward => if outer then st.radius else st.radius - st.thickness
      case Outward => if outer then st.radius + st.thickness else st.radius
  }

  /** How far the inner cap ring's texture coordinates reach, relative to
      the outer ring's: the inner wall's offset over the outer wall's. */
  function CapsVertexOffsetOf(st: TubeSettings): (r: real)
    requires OffsetDefined(st.shellType, st.radius, st.thickness)
    ensures r * ThicknessOffset(st.(hasThickness := true), true) == ThicknessOffset(st.(hasThickness := true), false)
  {
    match st.shellType
    case Inward =>
      assert (st.radius - st.thickness) / st.radius * st.radius == st.radius - st.thickness;
      (st.radius - st.thickness) / st.radius
    case Outward =>
      assert st.radius / (st.radius + st.thickness) * (st.radius + st.thickness) == st.radius;
      st.radius / (st.radius + st.thickness)
  }

  /** Slot j of a wall of s rings belongs to ring j / (sides + 1). */
  lemma WallSlotRing(sides: int, s: int, j: int)
    requires sides >= 1 && 0 <= j < WallVertexCount(sides, s)
    ensures 0 <= j / (sides + 1) < s
  {
    if j / (sides + 1) >= s {
      IntMath.MulMono(s, j / (sides + 1), sides + 1);
    }
  }

  /** Slot j = (outer wall: 0, inner wall: w) + r*g + i is vertex i of ring r
      of that wall, and lies inside the vertex buffer. */
  lemma WallSlotIndex(sides: int, s: int, thick: bool, r: int, i: int, j: int, outer: bool)
    requires sides >= 1 && 0 <= r < s && 0 <= i < sides + 1 && (outer || thick)
    requires j == (if outer then 0 else WallVertexCount(sides, s)) + r * (sides + 1) + i
    ensures 0 <= j < MeshVertexCount(sides, s, thick)
    ensures outer ==> j < WallVertexCount(sides, s) && j / (sides + 1) == r && j % (sides + 1) == i
    ensures !outer ==> WallVertexCount(sides, s) <= j < 2 * WallVertexCount(sides, s)
                       && (j - WallVertexCount(sides, s)) / (sides + 1) == r
                       && (j - WallVertexCount(sides, s)) % (sides + 1) == i
  {
    var g := sides + 1;
    IntMath.MulMono(r, s - 1, g);
    IntMath.MulMono(0, r, g);
    IntMath.LastBlock(g, s);
    IntMath.DivModOf(r, i, g);
  }

  /** Slot k = 2w + ring*g + i is position i of cap ring `ring`, after both
      walls and inside the vertex buffer of a thick tube. */
  lemma CapSlotIndex(sides: int, s: int, ring: int, i: int, k: int)
    requires sides >= 1 && s >= 1 && 0 <= ring < 4 && 0 <= i < sides + 1
    requires k == 2 * WallVertexCount(sides, s) + ring * (sides + 1) + i
    ensures 2 * WallVertexCount(sides, s) <= k < MeshVertexCount(sides, s, true)
    ensures (k - 2 * WallVertexCount(sides, s)) / (sides + 1) == ring
    ensures (k - 2 * WallVertexCount(sides, s)) % (sides + 1) == i
  {
    var g := sides + 1;
    IntMath.MulMono(0, s - 1, g);
    IntMath.LastBlock(g, s);
    IntMath.MulMono(ring, 3, g);
    IntMath.MulMono(0, ring, g);
    IntMath.DivModOf(ring, i, g);
  }

  /** Slot k = 2w + ring*g + i of a thick tube repeats vertex i of the
      first (rings 0, 1) or last (rings 2, 3) ring of the outer (even) or
      inner (odd) wall, with the cap's normal and texture coordinate. */
  lemma CapSlotOf(st: TubeSettings, ops: Ops, ring: int, i: int, k: int, r: int, outer: bool)
    requires st.sides >= 1 && |st.samples| >= 1 && st.hasThickness
    requires OffsetDefined(st.shellType, st.radius, st.thickness)
    requires 0 <= ring < 4 && 0 <= i < st.sides + 1
    requires k == 2 * WallVertexCount(st.sides, |st.samples|) + ring * (st.sides + 1) + i
    requires r == (if ring < 2 then 0 else |st.samples| - 1) && outer == (ring % 2 == 0)
    ensures 2 * WallVertexCount(st.sides, |st.samples|) <= k < MeshVertexCount(st.sides, |st.samples|, true)
    ensures MeshVertexOf(st, ops, k) == RingVertexOf(st, ops, r, i, outer)
    ensures MeshNormalOf(st, ops, k) == CapNormalOf(st, ring) && MeshUVOf(st, ops, k) == CapUVOf(st, ops, ring, i)
  {
    CapSlotIndex(st.sides, |st.samples|, ring, i, k);
  }

  /** Vertex n of ring i: the sample's right vector turned n/sides of a
      full turn about the sample's direction, scaled to the wall's offset
      and placed at the sample's position. */
  function RingVertexOf(st: TubeSettings, ops: Ops, i: int, n: int, outer: bool): Vec3
    requires st.sides >= 1 && 0 <= i < |st.samples|
  {
    var sample := st.samples[i];
    var anglePercent := (n as real) / (st.sides as real);
    Add(sample.position,
        Scale(ops.rotate(anglePercent * 360.0, sample.direction, sample.right), ThicknessOffset(st, outer)))
  }

  /** Its normal: away from the curve without thickness, toward it with
      thickness (on both walls). */
  function RingNormalOf(st: TubeSettings, ops: Ops, i: int, n: int, outer: bool): Vec3
    requires st.sides >= 1 && 0 <= i < |st.samples|
  {
    var center := st.samples[i].position;
    var v := RingVertexOf(st, ops, i, n, outer);
    ops.normalize(if st.hasThickness then Sub(center, v) else Sub(v, center))
  }

  /** Its texture coordinate: around the ring in u, down the tube in v. */
  function RingUVOf(st: TubeSettings, i: int, n: int): Vec2
    requires st.sides >= 1 && 0 <= i < |st.samples|
  {
    Vec2((n as real) / (st.sides as real), 1.0 - (i as real) / (|st.samples| as real))
  }

  /** Wall slot j holds position j % g of ring j / g. */
  function WallVertexOf(st: TubeSettings, ops: Ops, j: int, outer: bool): Vec3
    requires st.sides >= 1 && 0 <= j < WallVertexCount(st.sides, |st.samples|)
  {
    WallSlotRing(st.sides, |st.samples|, j);
    RingVertexOf(st, ops, j / (st.sides + 1), j % (st.sides + 1), outer)
  }

  function WallNormalOf(st: TubeSettings, ops: Ops, j: int, outer: bool): Vec3
    requires st.sides >= 1 && 0 <= j < WallVertexCount(st.sides, |st.samples|)
  {
    WallSlotRing(st.sides, |st.samples|, j);
    RingNormalOf(st, ops, j / (st.sides + 1), j % (st.sides + 1), outer)
  }

  function WallUVOf(st: TubeSettings, j: int): Vec2
    requires st.sides >= 1 && 0 <= j < WallVertexCount(st.sides, |st.samples|)
  {
    WallSlotRing(st.sides, |st.samples|, j);
    RingUVOf(st, j / (st.sides + 1), j % (st.sides + 1))
  }

  /** Normal of cap ring `ring`: backward along the first sample for the
      start cap (rings 0 and 1), forward along the last one for the end
      cap. */
  function CapNormalOf(st: TubeSettings, ring: int): Vec3
    requires |st.samples| >= 1
  {
    if ring < 2 then Neg(st.samples[0].direction) else st.samples[|st.samples| - 1].direction
  }

  /** Planar texture coordinate of position i of cap ring `ring`: a point
      on a circle of radius 1/2 about (1/2, 1/2), half a turn further for
      the end cap, pulled in by the caps' offset on the inner rings. */
  function CapUVOf(st: TubeSettings, ops: Ops, ring: int, i: int): Vec2
    requires st.sides >= 1 && |st.samples| >= 1
    requires ring % 2 == 1 ==> OffsetDefined(st.shellType, st.radius, st.thickness)
  {
    var dir := CapNormalOf(st, ring);
    var anglePercent := (i as real) / (st.sides as real);
    var angle := if ring < 2 then anglePercent * 360.0 else anglePercent * 360.0 + 180.0;
    var spoke := Scale(ops.rotate(angle, Neg(dir), Right), 0.5);
    var scaled := if ring % 2 == 1 then Scale(spoke, CapsVertexOffsetOf(st)) else spoke;
    ToVec2(Add(scaled, Scale(Add(Right, Up), 0.5)))
  }

  /** Vertex k of the finished mesh: the outer wall, the inner wall, then
      the cap rings, which repeat the first and last rings of each wall. */
  function MeshVertexOf(st: TubeSettings, ops: Ops, k: int): Vec3
    requires st.sides >= 1 && |st.samples| >= 1
    requires 0 <= k < MeshVertexCount(st.sides, |st.samples|, st.hasThickness)
  {
    var w := WallVertexCount(st.sides, |st.samples|);
    if k < w then WallVertexOf(st, ops, k, true)
    else if k < 2 * w then WallVertexOf(st, ops, k - w, false)
    else
      var ring := (k - 2 * w) / (st.sides + 1);
      RingVertexOf(st, ops, if ring < 2 then 0 else |st.samples| - 1, (k - 2 * w) % (st.sides + 1), ring % 2 == 0)
  }

  function MeshNormalOf(st: TubeSettings, ops: Ops, k: int): Vec3
    requires st.sides >= 1 && |st.samples| >= 1
    requires 0 <= k < MeshVertexCount(st.sides, |st.samples|, st.hasThickness)
  {
    var w := WallVertexCount(st.sides, |st.samples|);
    if k < w then WallNormalOf(st, ops, k, true)
    else if k < 2 * w then WallNormalOf(st, ops, k - w, false)
    else CapNormalOf(st, (k - 2 * w) / (st.sides + 1))
  }

  function MeshUVOf(st: TubeSettings, ops: Ops, k: int): Vec2
    requires st.sides >= 1 && |st.samples| >= 1
    requires 0 <= k < MeshVertexCount(st.sides, |st.samples|, st.hasThickness)
    requires st.hasThickness ==> OffsetDefined(st.shellType, st.radius, st.thickness)
  {
    var w := WallVertexCount(st.sides, |st.samples|);
    if k < w then WallUVOf(st, k)
    else if k < 2 * w then WallUVOf(st, k - w)
    else CapUVOf(st, ops, (k - 2 * w) / (st.sides + 1), (k - 2 * w) % (st.sides + 1))
  }

  class MeshBuilder {
    const sides: int
    const radius: real
    const hasThickness: bool
    const thickness: real
    const shellType: Shell
    const samples: seq<TubePoint>
    const ops: Ops
    const mesh: CustomMesh

    var bodyVertexCount: int
    var bodyTrisCount: int
    var capVertexCount: int
    var capTrisCount: int

    constructor(settings: TubeSettings, ops: Ops)
      ensures sides == settings.sides && radius == settings.radius
      ensures hasThickness == settings.hasThickness && thickness == settings.thickness
      ensures shellType == settings.shellType && samples == settings.samples && this.ops == ops
      ensures bodyVertexCount == 0 && bodyTrisCount == 0 && capVertexCount == 0 && capTrisCount == 0
      ensures Settings() == settings
      ensures fresh(mesh) && mesh.Valid() && mesh.vertices.Length == 0 && mesh.triangles.Length == 0
      ensures fresh(mesh.vertices) && fresh(mesh.normals) && fresh(mesh.uv) && fresh(mesh.triangles)
    {
      sides := settings.sides;
      radius := settings.radius;
      hasThickness := settings.hasThickness;
      thickness := settings.thickness;
      shellType := settings.shellType;
      samples := settings.samples;
      this.ops := ops;
      mesh := new CustomMesh();
      bodyVertexCount := 0;
      bodyTrisCount := 0;
      capVertexCount := 0;
      capTrisCount := 0;
    }

    /** The settings this builder was made with. */
    function Settings(): TubeSettings {
      TubeSettings(sides, radius, hasThickness, thickness, shellType, samples)
    }

    // -------------------------------------------------------------------
    // The vertex data of this builder's settings

    function VertexThicknessOffset(outer: bool): real {
      ThicknessOffset(Settings(), outer)
    }

    predicate CapsOffsetDefined() {
      OffsetDefined(shellType, radius, thickness)
    }

    function CapsVertexOffset(): real
      requires CapsOffsetDefined()
    {
      CapsVertexOffsetOf(Settings())
    }

    /** Without thickness both walls sit at the radius; with it the walls are
        `thickness` apart, and the caps' inner texture ring is scaled by the
        ratio of the inner wall's offset to the outer wall's. */
    lemma OffsetsAgree()
      requires hasThickness ==> CapsOffsetDefined()
      ensures !hasThickness ==> VertexThicknessOffset(true) == radius && VertexThicknessOffset(false) == radius
      ensures hasThickness ==> VertexThicknessOffset(true) - VertexThicknessOffset(false) == thickness
      ensures hasThickness ==> CapsVertexOffset() * VertexThicknessOffset(true) == VertexThicknessOffset(false)
    {
      if hasThickness {
        assert Settings().(hasThickness := true) == Settings();
      }
    }

    function RingVertex(i: int, n: int, outer: bool): Vec3
      requires sides >= 1 && 0 <= i < |samples|
    {
      RingVertexOf(Settings(), ops, i, n, outer)
    }

    function RingNormal(i: int, n: int, outer: bool): Vec3
      requires sides >= 1 && 0 <= i < |samples|
    {
      RingNormalOf(Settings(), ops, i, n, outer)
    }

    function RingUV(i: int, n: int): Vec2
      requires sides >= 1 && 0 <= i < |samples|
    {
      RingUVOf(Settings(), i, n)
    }

    function WallVertex(j: int, outer: bool): Vec3
      requires sides >= 1 && 0 <= j < WallVertexCount(sides, |samples|)
    {
      WallVertexOf(Settings(), ops, j, outer)
    }

    function WallNormal(j: int, outer: bool): Vec3
      requires sides >= 1 && 0 <= j < WallVertexCount(sides, |samples|)
    {
      WallNormalOf(Settings(), ops, j, outer)
    }

    function WallUV(j: int): Vec2
      requires sides >= 1 && 0 <= j < WallVertexCount(sides, |samples|)
    {
      WallUVOf(Settings(), j)
    }

    function CapNormal(ring: int): Vec3
      requires |samples| >= 1
    {
      CapNormalOf(Settings(), ring)
    }

    function CapUV(ring: int, i: int): Vec2
      requires sides >= 1 && |samples| >= 1 && (ring % 2 == 1 ==> CapsOffsetDefined())
    {
      CapUVOf(Settings(), ops, ring, i)
    }

    function MeshVertex(k: int): Vec3
      requires sides >= 1 && |samples| >= 1 && 0 <= k < MeshVertexCount(sides, |samples|, hasThickness)
    {
      MeshVertexOf(Settings(), ops, k)
    }

    function MeshNormal(k: int): Vec3
      requires sides >= 1 && |samples| >= 1 && 0 <= k < MeshVertexCount(sides, |samples|, hasThickness)
    {
      MeshNormalOf(Settings(), ops, k)
    }

    function MeshUV(k: int): Vec2
      requires sides >= 1 && |samples| >= 1 && 0 <= k < MeshVertexCount(sides, |samples|, hasThickness)
      requires hasThickness ==> CapsOffsetDefined()
    {
      MeshUVOf(Settings(), ops, k)
    }

    /** Slots base .. base + g*s - 1 of the vertex buffers hold one wall:
        slot base + j holds wall slot j. */
    ghost predicate WallAt(vs: array<Vec3>, ns: array<Vec3>, us: array<Vec2>, base: int, outer: bool)
      requires sides >= 1
      reads vs, ns, us
    {
      0 <= base && base + WallVertexCount(sides, |samples|) <= vs.Length
      && base + WallVertexCount(sides, |samples|) <= ns.Length && base + WallVertexCount(sides, |samples|) <= us.Length
      && forall k :: base <= k < base + WallVertexCount(sides, |samples|) ==>
           vs[k] == WallVertex(k - base, outer) && ns[k] == WallNormal(k - base, outer) && us[k] == WallUV(k - base)
    }

    /** The first `hi` slots of the vertex buffer contents `vs`, `ns`,
        `us` hold what the layout assigns them. */
    ghost predicate SlotsMatch(vs: seq<Vec3>, ns: seq<Vec3>, us: seq<Vec2>, hi: int)
      requires sides >= 1 && |samples| >= 1 && (hasThickness ==> CapsOffsetDefined())
    {
      0 <= hi <= |vs| && hi <= |ns| && hi <= |us|
      && hi <= MeshVertexCount(sides, |samples|, hasThickness)
      && forall k :: 0 <= k < hi ==> vs[k] == MeshVertex(k) && ns[k] == MeshNormal(k) && us[k] == MeshUV(k)
    }

    /** The same, for the mesh's own buffers. */
    ghost predicate VerticesMatch(hi: int)
      requires sides >= 1 && |samples| >= 1 && (hasThickness ==> CapsOffsetDefined())
      reads mesh, mesh.vertices, mesh.normals, mesh.uv
    {
      SlotsMatch(mesh.vertices[..], mesh.normals[..], mesh.uv[..], hi)
    }

    /** Copying into slot hi an earlier slot that the layout gives the same
        position, with the layout's normal and texture coordinate for slot
        hi, extends the matched prefix by one. */
    lemma SlotsCopy(vs: seq<Vec3>, ns: seq<Vec3>, us: seq<Vec2>, hi: int, src: int, n: Vec3, u: Vec2)
      requires sides >= 1 && |samples| >= 1 && (hasThickness ==> CapsOffsetDefined())
      requires SlotsMatch(vs, ns, us, hi)
      requires 0 <= src < hi < |vs| && hi < |ns| && hi < |us| && hi < MeshVertexCount(sides, |samples|, hasThickness)
      requires MeshVertex(hi) == MeshVertex(src) && n == MeshNormal(hi) && u == MeshUV(hi)
      ensures SlotsMatch(vs[hi := vs[src]], ns[hi := n], us[hi := u], hi + 1)
    {
    }

    /** The first `hi` entries of the index buffer hold what the layout
        assigns them. */
    ghost predicate IndicesMatch(hi: int)
      requires sides >= 1
      reads mesh, mesh.triangles
    {
      0 <= hi <= mesh.triangles.Length && hi <= MeshIndexCount(sides, |samples|, hasThickness)
      && forall j :: 0 <= j < hi ==> mesh.triangles[j] == MeshIndex(sides, |samples|, hasThickness, j)
    }

    /** Slot j = (outer wall: 0, inner wall: w) + r*g + i holds vertex i
        of ring r of that wall. */
    lemma WallSlot(r: int, i: int, j: int, outer: bool)
      requires sides >= 1 && 0 <= r < |samples| && 0 <= i < sides + 1
      requires outer || hasThickness
      requires j == (if outer then 0 else WallVertexCount(sides, |samples|)) + r * (sides + 1) + i
      ensures 0 <= j < MeshVertexCount(sides, |samples|, hasThickness)
      ensures MeshVertex(j) == RingVertex(r, i, outer)
    {
      WallSlotIndex(sides, |samples|, hasThickness, r, i, j, outer);
    }

    /** Slot k = 2w + ring*g + i, position i of cap ring `ring`, holds
        vertex i of ring r, the first (rings 0, 1) or last (rings 2, 3) ring,
        of the outer (even) or inner (odd) wall, with the cap's normal and texture
        coordinate. */
    lemma CapRingSlot(ring: int, i: int, k: int, r: int, outer: bool)
      requires sides >= 1 && |samples| >= 1 && hasThickness && CapsOffsetDefined()
      requires 0 <= ring < 4 && 0 <= i < sides + 1
      requires k == 2 * WallVertexCount(sides, |samples|) + ring * (sides + 1) + i
      requires r == (if ring < 2 then 0 else |samples| - 1) && outer == (ring % 2 == 0)
      ensures 2 * WallVertexCount(sides, |samples|) <= k < MeshVertexCount(sides, |samples|, hasThickness)
      ensures MeshVertex(k) == RingVertex(r, i, outer)
      ensures MeshNormal(k) == CapNormal(ring) && MeshUV(k) == CapUV(ring, i)
    {
      CapSlotOf(Settings(), ops, ring, i, k, r, outer);
    }

    /** Cap ring `ring` occupies slots start .. start + sides, inside the
        vertex buffer and after both walls, and the body ring it copies
        occupies slots from .. from + sides. */
    lemma CapRingBounds(ring: int, start: int, from: int)
      requires sides >= 1 && |samples| >= 1 && hasThickness
      requires 0 <= ring < 4
      requires start == 2 * WallVertexCount(sides, |samples|) + ring * (sides + 1)
      requires from == CapRingSource(sides, 2 * WallVertexCount(sides, |samples|), ring)
      ensures 0 <= from && from + sides + 1 <= 2 * WallVertexCount(sides, |samples|) <= start
      ensures start + sides + 1 <= MeshVertexCount(sides, |samples|, hasThickness)
    {
      var s, g := |samples|, sides + 1;
      IntMath.MulMono(ring, 3, g);
      IntMath.MulMono(0, ring, g);
      IntMath.LastBlock(g, s);
      IntMath.MulMono(0, s - 1, g);
    }

    /** Position i of cap ring `ring`, at slot start + i, repeats the
        vertex at slot from + i of the body ring it is copied from, and takes
        the cap's own normal and texture coordinate. */
    lemma CapSlot(ring: int, start: int, from: int, i: int)
      requires sides >= 1 && |samples| >= 1 && hasThickness && CapsOffsetDefined()
      requires 0 <= ring < 4 && 0 <= i < sides + 1
      requires start == 2 * WallVertexCount(sides, |samples|) + ring * (sides + 1)
      requires from == CapRingSource(sides, 2 * WallVertexCount(sides, |samples|), ring)
      ensures 0 <= from + i < start + i < MeshVertexCount(sides, |samples|, hasThickness)
      ensures MeshVertex(start + i) == MeshVertex(from + i)
      ensures MeshNormal(start + i) == CapNormal(ring) && MeshUV(start + i) == CapUV(ring, i)
    {
      var s, g := |samples|, sides + 1;
      CapRingBounds(ring, start, from);
      var r, outer := if ring < 2 then 0 else s - 1, ring % 2 == 0;
      CapRingSlot(ring, i, start + i, r, outer);
      CapRingSourceSlot(ring, from, r, outer);
      WallSlot(r, i, from + i, outer);
    }

    /** The body ring cap ring `ring` copies starts at slot r*g of the
        outer (even rings) or inner (odd rings) wall, r being the first
        ring for the start cap and the last one for the end cap. */
    lemma CapRingSourceSlot(ring: int, from: int, r: int, outer: bool)
      requires sides >= 1 && |samples| >= 1 && 0 <= ring < 4
      requires from == CapRingSource(sides, 2 * WallVertexCount(sides, |samples|), ring)
      requires r == (if ring < 2 then 0 else |samples| - 1) && outer == (ring % 2 == 0)
      ensures from == (if outer then 0 else WallVertexCount(sides, |samples|)) + r * (sides + 1)
    {
      var s, g := |samples|, sides + 1;
      var w := WallVertexCount(sides, s);
      IntMath.LastBlock(g, s);
      assert w == (s - 1) * g + g;
      if ring == 0 {
        assert from == 0 && r * g == 0;
      } else if ring == 1 {
        assert from == w && r * g == 0;
      } else if ring == 2 {
        assert from == w - g && r * g == (s - 1) * g;
      } else {
        assert from == 2 * w - g && r * g == (s - 1) * g;
      }
    }

    /** Filling position i of cap ring `ring` by copying its body slot and
        writing the cap's normal and texture coordinate extends the matched
        prefix by one. */
    lemma CapSlotCopy(ring: int, start: int, from: int, i: int, vs: seq<Vec3>, ns: seq<Vec3>, us: seq<Vec2>)
      requires sides >= 1 && |samples| >= 1 && hasThickness && CapsOffsetDefined()
      requires 0 <= ring < 4 && 0 <= i < sides + 1
      requires start == 2 * WallVertexCount(sides, |samples|) + ring * (sides + 1)
      requires from == CapRingSource(sides, 2 * WallVertexCount(sides, |samples|), ring)
      requires |vs| == MeshVertexCount(sides, |samples|, true) && |ns| == |vs| && |us| == |vs|
      requires SlotsMatch(vs, ns, us, start + i)
      ensures 0 <= from + i < start + i < |vs|
      ensures SlotsMatch(vs[start + i := vs[from + i]], ns[start + i := CapNormal(ring)], us[start + i := CapUV(ring, i)], start + i + 1)
    {
      CapSlot(ring, start, from, i);
      SlotsCopy(vs, ns, us, start + i, from + i, CapNormal(ring), CapUV(ring, i));
    }

    /** Buffers holding the outer wall, then (with thickness) the inner
        wall, hold what the layout assigns to every body slot. */
    lemma WallsMatch(vs: array<Vec3>, ns: array<Vec3>, us: array<Vec2>)
      requires sides >= 1 && |samples| >= 1 && (hasThickness ==> CapsOffsetDefined())
      requires vs.Length == BodyVertexCount(sides, |samples|, hasThickness)
      requires ns.Length == vs.Length && us.Length == vs.Length
      requires WallAt(vs, ns, us, 0, true)
      requires hasThickness ==> WallAt(vs, ns, us, WallVertexCount(sides, |samples|), false)
      ensures SlotsMatch(vs[..], ns[..], us[..], vs.Length)
    {
      var w := WallVertexCount(sides, |samples|);
      forall k | 0 <= k < vs.Length
        ensures vs[k] == MeshVertex(k) && ns[k] == MeshNormal(k) && us[k] == MeshUV(k)
      {
        if k >= w {
          assert hasThickness;
        }
      }
    }

    /** An index buffer whose first half holds the outer wall's block
        becomes, after MakeInnerSide moves it by one wall of vertices, the
        layout's whole body block: the inner wall is the outer wall
        reversed. */
    lemma InnerWallIndices(t1: seq<int>)
      requires sides >= 1 && |samples| >= 1 && hasThickness
      requires |t1| == BodyIndexCount(sides, |samples|, true)
      requires forall j :: 0 <= j < WallIndexCount(sides, |samples|) ==> t1[j] == WallIndex(sides, j)
      ensures (|t1| / 2) % 3 == 0
      ensures forall j :: 0 <= j < |t1| ==>
                InnerSide(t1, WallVertexCount(sides, |samples|))[j] == MeshIndex(sides, |samples|, true, j)
    {
      var w := WallIndexCount(sides, |samples|);
      MirrorRange(w);
    }

    // -------------------------------------------------------------------
    // Building

    /** Builds the mesh: the outer wall, and with thickness the inner wall
        and the caps. Every buffer ends up exactly as long as the layout
        says, every slot holds the value the layout assigns it, and every
        index addresses a vertex. */
    method Build() returns (m: CustomMesh)
      requires sides >= 1 && |samples| >= 1 && mesh.Valid()
      requires hasThickness ==> CapsOffsetDefined()
      modifies this, mesh, mesh.vertices, mesh.normals, mesh.uv, mesh.triangles
      ensures m == mesh && m.Valid()
      ensures m.vertices.Length == MeshVertexCount(sides, |samples|, hasThickness)
      ensures m.triangles.Length == MeshIndexCount(sides, |samples|, hasThickness)
      ensures forall k :: 0 <= k < m.vertices.Length ==>
                m.vertices[k] == MeshVertex(k) && m.normals[k] == MeshNormal(k) && m.uv[k] == MeshUV(k)
      ensures forall j :: 0 <= j < m.triangles.Length ==>
                m.triangles[j] == MeshIndex(sides, |samples|, hasThickness, j)
                && 0 <= m.triangles[j] < m.vertices.Length
    {
      CalculateTriangleComponents();
      GenerateBody();
      if hasThickness {
        GenerateCaps();
      }
      MeshComplete();
      m := mesh;
    }

    /** A mesh whose buffers hold the layout in full has every slot as the
        layout says and every index addressing a vertex. */
    lemma MeshComplete()
      requires sides >= 1 && |samples| >= 1 && (hasThickness ==> CapsOffsetDefined())
      requires mesh.vertices.Length == MeshVertexCount(sides, |samples|, hasThickness)
      requires mesh.triangles.Length == MeshIndexCount(sides, |samples|, hasThickness)
      requires VerticesMatch(mesh.vertices.Length) && IndicesMatch(mesh.triangles.Length)
      ensures forall k :: 0 <= k < mesh.vertices.Length ==>
                mesh.vertices[k] == MeshVertex(k) && mesh.normals[k] == MeshNormal(k) && mesh.uv[k] == MeshUV(k)
      ensures forall j :: 0 <= j < mesh.triangles.Length ==>
                mesh.triangles[j] == MeshIndex(sides, |samples|, hasThickness, j)
                && 0 <= mesh.triangles[j] < mesh.vertices.Length
    {
      forall k | 0 <= k < mesh.vertices.Length
        ensures mesh.vertices[k] == MeshVertex(k) && mesh.normals[k] == MeshNormal(k) && mesh.uv[k] == MeshUV(k)
      {
        assert mesh.vertices[..][k] == mesh.vertices[k];
      }
      forall j | 0 <= j < mesh.triangles.Length
        ensures 0 <= mesh.triangles[j] < mesh.vertices.Length
      {
        MeshIndexRange(sides, |samples|, hasThickness, j);
      }
    }

    /** The body: buffers sized for the walls, the walls' vertices, then
        their triangles. */
    method GenerateBody()
      requires sides >= 1 && |samples| >= 1 && (hasThickness ==> CapsOffsetDefined()) && mesh.Valid()
      requires bodyVertexCount == BodyVertexCount(sides, |samples|, hasThickness)
      requires bodyTrisCount == BodyIndexCount(sides, |samples|, hasThickness)
      modifies mesh, mesh.vertices, mesh.normals, mesh.uv, mesh.triangles
      ensures mesh.Valid()
      ensures mesh.vertices.Length == bodyVertexCount && mesh.triangles.Length == bodyTrisCount
      ensures if old(mesh.vertices.Length) == bodyVertexCount
              then mesh.vertices == old(mesh.vertices) && mesh.normals == old(mesh.normals) && mesh.uv == old(mesh.uv)
              else fresh(mesh.vertices) && fresh(mesh.normals) && fresh(mesh.uv)
      ensures if old(mesh.triangles.Length) == bodyTrisCount
              then mesh.triangles == old(mesh.triangles) else fresh(mesh.triangles)
      ensures VerticesMatch(bodyVertexCount) && IndicesMatch(bodyTrisCount)
    {
      AllocateMesh(bodyVertexCount, bodyTrisCount);
      GenerateWalls();
      ghost var vs, ns, us := mesh.vertices[..], mesh.normals[..], mesh.uv[..];
      assert SlotsMatch(vs, ns, us, bodyVertexCount);
      GenerateWallTriangles();
      assert mesh.vertices[..] == vs && mesh.normals[..] == ns && mesh.uv[..] == us;
    }

    /** The vertex half of the body: the outer wall, then with thickness
        the inner wall right after it. */
    method GenerateWalls()
      requires sides >= 1 && |samples| >= 1 && (hasThickness ==> CapsOffsetDefined()) && mesh.Valid()
      requires mesh.vertices.Length == BodyVertexCount(sides, |samples|, hasThickness)
      modifies mesh.vertices, mesh.normals, mesh.uv
      ensures VerticesMatch(mesh.vertices.Length)
    {
      var vindex := GenerateVertices(0, true);
      if hasThickness {
        vindex := GenerateVertices(vindex, false);
        assert WallAt(mesh.vertices, mesh.normals, mesh.uv, 0, true);
      }
      WallsMatch(mesh.vertices, mesh.normals, mesh.uv);
    }

    /** The index half of the body: the outer wall's quads, then with
        thickness their mirror image on the inner wall. */
    method GenerateWallTriangles()
      requires sides >= 1 && |samples| >= 1 && mesh.Valid()
      requires mesh.vertices.Length == BodyVertexCount(sides, |samples|, hasThickness)
      requires mesh.triangles.Length == BodyIndexCount(sides, |samples|, hasThickness)
      modifies mesh.triangles
      ensures IndicesMatch(mesh.triangles.Length)
    {
      GenerateBodyPlaneTriangles();
      if hasThickness {
        ghost var t1 := mesh.triangles[..];
        InnerWallIndices(t1);
        MakeInnerSide(mesh);
        assert forall j :: 0 <= j < mesh.triangles.Length ==> mesh.triangles[j] == mesh.triangles[..][j];
      }
    }

    /** Sets the body sizes: g vertices per sample and six indices per quad,
        both doubled for the inner wall. */
    method CalculateTriangleComponents()
      modifies this
      ensures bodyVertexCount == BodyVertexCount(sides, |samples|, hasThickness)
      ensures bodyTrisCount == BodyIndexCount(sides, |samples|, hasThickness)
      ensures capVertexCount == old(capVertexCount) && capTrisCount == old(capTrisCount)
    {
      bodyVertexCount := (sides + 1) * |samples|;
      bodyTrisCount := sides * (|samples| - 1) * 2 * 3;
      if hasThickness {
        bodyVertexCount := bodyVertexCount * 2;
        bodyTrisCount := bodyTrisCount * 2;
      }
    }

    /** Gives the buffers the requested sizes, keeping a buffer that already
        has its size. */
    method AllocateMesh(vertexCount: int, trisCount: int)
      requires vertexCount >= 0 && trisCount >= 0 && mesh.Valid()
      modifies mesh
      ensures mesh.Valid()
      ensures mesh.vertices.Length == vertexCount && mesh.triangles.Length == trisCount
      ensures if old(mesh.vertices.Length) == vertexCount
              then mesh.vertices == old(mesh.vertices) && mesh.normals == old(mesh.normals) && mesh.uv == old(mesh.uv)
              else fresh(mesh.vertices) && fresh(mesh.normals) && fresh(mesh.uv)
      ensures if old(mesh.triangles.Length) == trisCount
              then mesh.triangles == old(mesh.triangles) else fresh(mesh.triangles)
    {
      if mesh.vertices.Length != vertexCount {
        mesh.vertices := new Vec3[vertexCount];
        mesh.normals := new Vec3[vertexCount];
        mesh.uv := new Vec2[vertexCount];
      }
      if mesh.triangles.Length != trisCount {
        mesh.triangles := new int[trisCount];
      }
    }

    /** Fills one wall, ring after ring, from `vertexIndex` on, and returns
        the slot after the last one written: slot vertexIndex + i*g + n
        receives vertex n of ring i. Nothing else changes. */
    method GenerateVertices(vertexIndex: int, isOuterWall: bool) returns (next: int)
      requires sides >= 1 && mesh.Valid()
      requires 0 <= vertexIndex && vertexIndex + WallVertexCount(sides, |samples|) <= mesh.vertices.Length
      modifies mesh.vertices, mesh.normals, mesh.uv
      ensures next == vertexIndex + WallVertexCount(sides, |samples|)
      ensures WallAt(mesh.vertices, mesh.normals, mesh.uv, vertexIndex, isOuterWall)
      ensures forall k :: 0 <= k < mesh.vertices.Length && (k < vertexIndex || next <= k) ==>
                mesh.vertices[k] == old(mesh.vertices[k]) && mesh.normals[k] == old(mesh.normals[k])
                && mesh.uv[k] == old(mesh.uv[k])
    {
      var s := |samples|;
      var g := sides + 1;
      var vi := vertexIndex;
      var i := 0;
      while i < s
        invariant 0 <= i <= s
        invariant vi == vertexIndex + i * g
        invariant vi <= vertexIndex + WallVertexCount(sides, s)
        invariant forall k :: vertexIndex <= k < vi ==>
                    mesh.vertices[k] == WallVertex(k - vertexIndex, isOuterWall)
                    && mesh.normals[k] == WallNormal(k - vertexIndex, isOuterWall)
                    && mesh.uv[k] == WallUV(k - vertexIndex)
        invariant forall k :: 0 <= k < mesh.vertices.Length && (k < vertexIndex || vi <= k) ==>
                    mesh.vertices[k] == old(mesh.vertices[k]) && mesh.normals[k] == old(mesh.normals[k])
                    && mesh.uv[k] == old(mesh.uv[k])
      {
        IntMath.MulMono(i + 1, s, g);
        vi := GenerateRing(vertexIndex, vi, i, isOuterWall);
        i := i + 1;
      }
      next := vi;
    }

    /** The inner loop of GenerateVertices: ring i into slots vi .. vi+g-1. */
    method GenerateRing(vertexIndex: int, vi: int, i: int, isOuterWall: bool) returns (next: int)
      requires sides >= 1 && mesh.Valid() && 0 <= i < |samples|
      requires vi == vertexIndex + i * (sides + 1) && 0 <= vertexIndex
      requires vi + sides + 1 <= mesh.vertices.Length
      requires vi + sides + 1 <= vertexIndex + WallVertexCount(sides, |samples|)
      modifies mesh.vertices, mesh.normals, mesh.uv
      ensures next == vi + sides + 1
      ensures forall k :: vi <= k < next ==>
                mesh.vertices[k] == WallVertex(k - vertexIndex, isOuterWall)
                && mesh.normals[k] == WallNormal(k - vertexIndex, isOuterWall)
                && mesh.uv[k] == WallUV(k - vertexIndex)
      ensures forall k :: 0 <= k < mesh.vertices.Length && (k < vi || next <= k) ==>
                mesh.vertices[k] == old(mesh.vertices[k]) && mesh.normals[k] == old(mesh.normals[k])
                && mesh.uv[k] == old(mesh.uv[k])
    {
      var center := samples[i].position;
      var right := samples[i].right;
      var uvPercent := (i as real) / (|samples| as real);
      next := vi;
      var n := 0;
      while n < sides + 1
        invariant 0 <= n <= sides + 1
        invariant next == vi + n
        invariant forall k :: vi <= k < next ==>
                    mesh.vertices[k] == WallVertex(k - vertexIndex, isOuterWall)
                    && mesh.normals[k] == WallNormal(k - vertexIndex, isOuterWall)
                    && mesh.uv[k] == WallUV(k - vertexIndex)
        invariant forall k :: 0 <= k < mesh.vertices.Length && (k < vi || next <= k) ==>
                    mesh.vertices[k] == old(mesh.vertices[k]) && mesh.normals[k] == old(mesh.normals[k])
                    && mesh.uv[k] == old(mesh.uv[k])
      {
        var anglePercent := (n as real) / (sides as real);
        var offset := VertexThicknessOffset(isOuterWall);
        var v := Add(center, Scale(ops.rotate(anglePercent * 360.0, samples[i].direction, right), offset));
        mesh.vertices[next] := v;
        mesh.uv[next] := Vec2(anglePercent, 1.0 - uvPercent);
        var vn := if hasThickness then Sub(center, mesh.vertices[next]) else Sub(mesh.vertices[next], center);
        mesh.normals[next] := ops.normalize(vn);
        IntMath.DivModOf(i, n, sides + 1);
        assert (next - vertexIndex) / (sides + 1) == i && (next - vertexIndex) % (sides + 1) == n;
        next := next + 1;
        n := n + 1;
      }
    }

    /** Fills the outer wall's index block: quad k (of sides per pair of
        rings) sits at entries 6k .. 6k+5, based at FaceBase(k), the face
        cursor skipping each seam vertex. The block is exactly
        WallIndexCount entries long; nothing after it changes. */
    method GenerateBodyPlaneTriangles()
      requires sides >= 1 && |samples| >= 1
      requires WallIndexCount(sides, |samples|) <= mesh.triangles.Length
      modifies mesh.triangles
      ensures forall j :: 0 <= j < WallIndexCount(sides, |samples|) ==> mesh.triangles[j] == WallIndex(sides, j)
      ensures forall j :: WallIndexCount(sides, |samples|) <= j < mesh.triangles.Length ==>
                mesh.triangles[j] == old(mesh.triangles[j])
    {
      var s := |samples|;
      var nbFaces := sides * (s - 1);
      var tri := mesh.triangles;
      ghost var t0 := tri[..];
      var t := 0;
      var g := sides + 1;
      var face := 0;
      ghost var k := 0;
      while face < nbFaces + s - 2
        invariant 0 <= k <= nbFaces
        invariant face == (if k == 0 then 0 else FaceBase(sides, k - 1) + 1)
        invariant t == 6 * k
        invariant k < nbFaces <==> face < nbFaces + s - 2
        invariant forall j :: 0 <= j < t ==> tri[j] == WallIndex(sides, j)
        invariant forall j :: t <= j < |t0| ==> tri[j] == t0[j]
        decreases nbFaces - k
      {
        FaceStep(sides, k, face);
        if (face + 1) % g == 0 && face != 0 {
          face := face + 1;
        }
        assert face == FaceBase(sides, k);
        FaceLoopBound(sides, s, k);
        var quad := [face, face + 1, face + sides + 1, face + 1, face + sides + 2, face + sides + 1];
        WallQuadEntries(sides, k, face, quad);
        WriteQuad(tri, t, quad);
        t := t + 6;
        face := face + 1;
        k := k + 1;
      }
    }

    /** Fills the second half of the index buffer with the first half's
        triangles, corners reversed and moved onto the second half of the
        vertices: the inner wall, facing the other way. The first half is
        left as it is. */
    method MakeInnerSide(input: CustomMesh)
      requires (input.triangles.Length / 2) % 3 == 0
      modifies input.triangles
      ensures input.triangles[..] == InnerSide(old(input.triangles[..]), input.vertices.Length / 2)
    {
      var vertexHalf := input.vertices.Length / 2;
      var trisHalf := input.triangles.Length / 2;
      var tri := input.triangles;
      ghost var t0 := tri[..];
      var i := 0;
      while i < trisHalf
        invariant 0 <= i <= trisHalf && i % 3 == 0
        invariant InnerSideUpTo(tri[..], t0, trisHalf, vertexHalf, i)
      {
        ghost var c := tri[..];
        tri[i + trisHalf + 2] := tri[i] + vertexHalf;
        tri[i + trisHalf + 1] := tri[i + 1] + vertexHalf;
        tri[i + trisHalf] := tri[i + 2] + vertexHalf;
        MirrorStep(c, tri[..], t0, trisHalf, vertexHalf, i);
        i := i + 3;
      }
      InnerSideDone(tri[..], t0, vertexHalf);
    }

    /** Grows the buffers by the caps' four rings and 12*sides indices,
        keeping every existing entry where it was. */
    method AllocateMeshForCaps()
      requires sides >= 0 && mesh.Valid()
      requires mesh.vertices.Length <= bodyVertexCount + CapVertexCount(sides)
      requires mesh.triangles.Length <= bodyTrisCount + CapIndexCount(sides)
      modifies this, mesh
      ensures mesh.Valid()
      ensures bodyVertexCount == old(bodyVertexCount) && bodyTrisCount == old(bodyTrisCount)
      ensures capVertexCount == CapVertexCount(sides) && capTrisCount == CapIndexCount(sides)
      ensures mesh.vertices.Length == bodyVertexCount + capVertexCount
      ensures mesh.triangles.Length == bodyTrisCount + capTrisCount
      ensures forall k :: 0 <= k < old(mesh.vertices.Length) ==>
                mesh.vertices[k] == old(mesh.vertices[k]) && mesh.normals[k] == old(mesh.normals[k])
                && mesh.uv[k] == old(mesh.uv[k])
      ensures forall j :: 0 <= j < old(mesh.triangles.Length) ==> mesh.triangles[j] == old(mesh.triangles[j])
      ensures if old(mesh.vertices.Length) == mesh.vertices.Length
              then mesh.vertices == old(mesh.vertices) && mesh.normals == old(mesh.normals) && mesh.uv == old(mesh.uv)
              else fresh(mesh.vertices) && fresh(mesh.normals) && fresh(mesh.uv)
      ensures if old(mesh.triangles.Length) == mesh.triangles.Length
              then mesh.triangles == old(mesh.triangles) else fresh(mesh.triangles)
    {
      capVertexCount := (sides + 1) * 2 * 2;
      var vertexCount := bodyVertexCount + capVertexCount;
      if mesh.vertices.Length != vertexCount {
        var vs := Grow(mesh.vertices, vertexCount);
        mesh.vertices := vs;
        var ns := Grow(mesh.normals, vertexCount);
        mesh.normals := ns;
        var uvs := Grow(mesh.uv, vertexCount);
        mesh.uv := uvs;
      }
      capTrisCount := sides * 2 * 3 * 2;
      var trisCount := bodyTrisCount + capTrisCount;
      if mesh.triangles.Length != trisCount {
        var tris := Grow(mesh.triangles, trisCount);
        mesh.triangles := tris;
      }
    }

    /** Adds the caps: four rings copying the positions of the first outer,
        first inner, last outer and last inner body rings, with the caps'
        normals and planar texture coordinates, then the caps' triangles.
        Called once both walls are in place, it completes every buffer to
        the layout. */
    method GenerateCaps()
      requires sides >= 1 && |samples| >= 1 && hasThickness && CapsOffsetDefined() && mesh.Valid()
      requires bodyVertexCount == BodyVertexCount(sides, |samples|, true)
      requires bodyTrisCount == BodyIndexCount(sides, |samples|, true)
      requires mesh.vertices.Length == bodyVertexCount && mesh.triangles.Length == bodyTrisCount
      requires VerticesMatch(bodyVertexCount) && IndicesMatch(bodyTrisCount)
      modifies this, mesh, mesh.vertices, mesh.normals, mesh.uv, mesh.triangles
      ensures mesh.Valid()
      ensures bodyVertexCount == old(bodyVertexCount) && bodyTrisCount == old(bodyTrisCount)
      ensures capVertexCount == CapVertexCount(sides) && capTrisCount == CapIndexCount(sides)
      ensures mesh.vertices.Length == MeshVertexCount(sides, |samples|, true)
      ensures mesh.triangles.Length == MeshIndexCount(sides, |samples|, true)
      ensures VerticesMatch(mesh.vertices.Length) && IndicesMatch(mesh.triangles.Length)
    {
      AllocateMeshForCaps();
      var b, g := bodyVertexCount, sides + 1;
      assert VerticesMatch(b);
      assert IndicesMatch(bodyTrisCount);
      FillCapRing(0, b, CapRingSource(sides, b, 0));
      FillCapRing(1, b + g, CapRingSource(sides, b, 1));
      FillCapRing(2, b + 2 * g, CapRingSource(sides, b, 2));
      FillCapRing(3, b + 3 * g, CapRingSource(sides, b, 3));
      GenerateCapsPlaneTriangles();
    }

    /** One of the four ring loops of GenerateCaps: position i of cap ring
        `ring`, at slot start + i, copies the body vertex at from + i and gets
        the cap's normal and texture coordinate; the slots the layout has
        already been met on extend by the ring. */
    method FillCapRing(ring: int, start: int, from: int)
      requires 0 <= ring < 4 && sides >= 1 && |samples| >= 1 && hasThickness && CapsOffsetDefined() && mesh.Valid()
      requires bodyVertexCount == BodyVertexCount(sides, |samples|, true)
      requires start == bodyVertexCount + ring * (sides + 1) && from == CapRingSource(sides, bodyVertexCount, ring)
      requires mesh.vertices.Length == MeshVertexCount(sides, |samples|, true)
      requires VerticesMatch(start)
      modifies mesh.vertices, mesh.normals, mesh.uv
      ensures VerticesMatch(start + sides + 1)
      ensures forall k :: start + sides + 1 <= k < mesh.vertices.Length ==>
                mesh.vertices[k] == old(mesh.vertices[k]) && mesh.normals[k] == old(mesh.normals[k])
                && mesh.uv[k] == old(mesh.uv[k])
    {
      var g := sides + 1;
      var vs, ns, us := mesh.vertices, mesh.normals, mesh.uv;
      CapRingBounds(ring, start, from);
      var i := 0;
      while i < g
        invariant 0 <= i <= g
        invariant VerticesMatch(start + i)
        invariant forall k :: start + g <= k < vs.Length ==>
                    vs[k] == old(vs[k]) && ns[k] == old(ns[k]) && us[k] == old(us[k])
      {
        var index := start + i;
        ghost var v0, n0, u0 := vs[..], ns[..], us[..];
        CapSlotCopy(ring, start, from, i, v0, n0, u0);
        vs[index] := vs[from + i];
        ns[index] := CapNormal(ring);
        us[index] := CapUV(ring, i);
        assert vs[..] == v0[index := v0[from + i]];
        assert ns[..] == n0[index := CapNormal(ring)];
        assert us[..] == u0[index := CapUV(ring, i)];
        i := i + 1;
      }
    }

    /** Writes the two caps' triangles after the body's: the start cap's
        quads join rings 0 and 1 of the caps, the end cap's rings 2 and 3,
        wound the other way. */
    method GenerateCapsPlaneTriangles()
      requires sides >= 1 && hasThickness
      requires bodyVertexCount == BodyVertexCount(sides, |samples|, true)
      requires bodyTrisCount == BodyIndexCount(sides, |samples|, true)
      requires capVertexCount == CapVertexCount(sides)
      requires mesh.triangles.Length == MeshIndexCount(sides, |samples|, true)
      requires IndicesMatch(bodyTrisCount)
      modifies mesh.triangles
      ensures IndicesMatch(mesh.triangles.Length)
    {
      var t := StartCapTriangles(bodyTrisCount);
      t := EndCapTriangles(t);
      forall j | 0 <= j < mesh.triangles.Length
        ensures mesh.triangles[j] == MeshIndex(sides, |samples|, hasThickness, j)
      {
      }
    }

    /** The first loop of GenerateCapsPlaneTriangles: the start cap's quads
        from index entry `from` on; returns where the next block begins. */
    method StartCapTriangles(from: int) returns (next: int)
      requires sides >= 1 && from >= 0 && from + 6 * sides <= mesh.triangles.Length
      modifies mesh.triangles
      ensures next == from + 6 * sides
      ensures forall j :: from <= j < next ==> mesh.triangles[j] == StartCapIndex(sides, bodyVertexCount, j - from)
      ensures forall j :: (0 <= j < mesh.triangles.Length && (j < from || next <= j)) ==>
                mesh.triangles[j] == old(mesh.triangles[j])
    {
      var nbFaces := sides;
      var b := bodyVertexCount;
      var tri := mesh.triangles;
      ghost var t0 := tri[..];
      var t := from;
      var face := 0;
      while face < nbFaces
        invariant 0 <= face <= nbFaces && t == from + 6 * face
        invariant forall j :: from <= j < t ==> tri[j] == StartCapIndex(sides, b, j - from)
        invariant forall j :: (0 <= j < |t0| && (j < from || t <= j)) ==> tri[j] == t0[j]
      {
        var quad := [b + face + sides + 1, b + face + 1, b + face,
                     b + face + 1, b + face + sides + 1, b + face + sides + 2];
        assert quad == StartCapQuad(sides, b, face);
        WriteQuad(tri, t, quad);
        forall j | t <= j < t + 6
          ensures tri[j] == StartCapIndex(sides, b, j - from)
        {
          IntMath.DivModOf(face, j - t, 6);
        }
        t := t + 6;
        face := face + 1;
      }
      next := t;
    }

    /** The second loop of GenerateCapsPlaneTriangles: the end cap's quads,
        from index entry `from` on, on the rings half the caps' vertices
        further. */
    method EndCapTriangles(from: int) returns (next: int)
      requires sides >= 1 && from >= 0 && from + 6 * sides <= mesh.triangles.Length
      requires capVertexCount == CapVertexCount(sides)
      modifies mesh.triangles
      ensures next == from + 6 * sides
      ensures forall j :: from <= j < next ==> mesh.triangles[j] == EndCapIndex(sides, bodyVertexCount, j - from)
      ensures forall j :: (0 <= j < mesh.triangles.Length && (j < from || next <= j)) ==>
                mesh.triangles[j] == old(mesh.triangles[j])
    {
      var nbFaces := sides;
      var b := bodyVertexCount;
      var halfCapVert := capVertexCount / 2;
      var tri := mesh.triangles;
      ghost var t0 := tri[..];
      var t := from;
      var face := 0;
      while face < nbFaces
        invariant 0 <= face <= nbFaces && t == from + 6 * face
        invariant forall j :: from <= j < t ==> tri[j] == EndCapIndex(sides, b, j - from)
        invariant forall j :: (0 <= j < |t0| && (j < from || t <= j)) ==> tri[j] == t0[j]
      {
        var quad := [b + halfCapVert + face, b + halfCapVert + face + 1,
                     b + halfCapVert + face + sides + 1, b + halfCapVert + face + sides + 2,
                     b + halfCapVert + face + sides + 1, b + halfCapVert + face + 1];
        assert quad == EndCapQuad(sides, b, face);
        WriteQuad(tri, t, quad);
        forall j | t <= j < t + 6
          ensures tri[j] == EndCapIndex(sides, b, j - from)
        {
          IntMath.DivModOf(face, j - t, 6);
        }
        t := t + 6;
        face := face + 1;
      }
      next := t;
    }
  }

    /** Six consecutive index entries from `t` on: one quad. */
  method WriteQuad(tri: array<int>, t: int, quad: seq<int>)
    requires |quad| == 6 && 0 <= t && t + 6 <= tri.Length
    modifies tri
    ensures forall j :: t <= j < t + 6 ==> tri[j] == quad[j - t]
    ensures forall j :: (0 <= j < tri.Length && (j < t || t + 6 <= j)) ==> tri[j] == old(tri[j])
  {
    tri[t] := quad[0];
    tri[t + 1] := quad[1];
    tri[t + 2] := quad[2];
    tri[t + 3] := quad[3];
    tri[t + 4] := quad[4];
    tri[t + 5] := quad[5];
  }
}
