/** Index arithmetic of the tube mesh. A ring holds g = sides + 1 vertices
    (the seam vertex is duplicated so that texture coordinates can wrap), and
    a wall holds one ring per curve sample. With thickness the buffers hold
    the outer wall, then the inner wall, then four cap rings (first outer,
    first inner, last outer, last inner). The functions here give the buffer
    sizes and the index written at every position of the index buffer; the
    lemmas show every index lands on a vertex of the right part. */
module MeshLayout {
  import IntMath

  // ---------------------------------------------------------------------
  // Buffer sizes

  /** Vertices of one wall: one ring of sides + 1 per sample. */
  function WallVertexCount(sides: int, s: int): int {
    (sides + 1) * s
  }

  /** Index entries of one wall: two triangles per quad, sides quads per
      pair of consecutive rings. */
  function WallIndexCount(sides: int, s: int): int {
    sides * (s - 1) * 2 * 3
  }

  function BodyVertexCount(sides: int, s: int, thick: bool): int {
    if thick then 2 * WallVertexCount(sides, s) else WallVertexCount(sides, s)
  }

  function BodyIndexCount(sides: int, s: int, thick: bool): int {
    if thick then 2 * WallIndexCount(sides, s) else WallIndexCount(sides, s)
  }

  /** Two rings (outer and inner) for each of the two caps. */
  function CapVertexCount(sides: int): int {
    (sides + 1) * 2 * 2
  }

  /** sides quads of two triangles for each of the two caps. */
  function CapIndexCount(sides: int): int {
    sides * 2 * 3 * 2
  }

  function MeshVertexCount(sides: int, s: int, thick: bool): int {
    BodyVertexCount(sides, s, thick) + (if thick then CapVertexCount(sides) else 0)
  }

  function MeshIndexCount(sides: int, s: int, thick: bool): int {
    BodyIndexCount(sides, s, thick) + (if thick then CapIndexCount(sides) else 0)
  }

  // ---------------------------------------------------------------------
  // Wall quads

  /** Number of quads of one wall. */
  function FaceCount(sides: int, s: int): int {
    sides * (s - 1)
  }

  /** The bound the body loop tests its face cursor against. */
  function FaceLimit(sides: int, s: int): int {
    FaceCount(sides, s) + s - 2
  }

  /** First vertex of quad k: ring k / sides, position k % sides in it. */
  function FaceBase(sides: int, k: int): int
    requires sides >= 1
  {
    (k / sides) * (sides + 1) + k % sides
  }

  /** Corner c of the two triangles (f, f+1, f+g) and (f+1, f+g+1, f+g) of
      the quad whose first vertex is f. */
  function QuadCorner(sides: int, f: int, c: int): int {
    var g := sides + 1;
    if c == 0 then f
    else if c == 1 then f + 1
    else if c == 2 then f + g
    else if c == 3 then f + 1
    else if c == 4 then f + g + 1
    else f + g
  }

  /** Entry m of the outer wall's index block. */
  function WallIndex(sides: int, m: int): int
    requires sides >= 1 && m >= 0
  {
    QuadCorner(sides, FaceBase(sides, m / 6), m % 6)
  }

  /** Entry 6k + c of the wall block is corner c of quad k. */
  lemma WallIndexAt(sides: int, k: int, c: int)
    requires sides >= 1 && k >= 0 && 0 <= c < 6
    ensures WallIndex(sides, 6 * k + c) == QuadCorner(sides, FaceBase(sides, k), c)
  {
    IntMath.DivModOf(k, c, 6);
    assert (6 * k + c) / 6 == k && (6 * k + c) % 6 == c;
  }

  /** The six entries the body loop writes for quad k, based at vertex
      f = FaceBase(k), are entries 6k .. 6k+5 of the wall's block. */
  lemma WallQuadEntries(sides: int, k: int, f: int, quad: seq<int>)
    requires sides >= 1 && k >= 0 && f == FaceBase(sides, k)
    requires quad == [f, f + 1, f + sides + 1, f + 1, f + sides + 2, f + sides + 1]
    ensures forall c :: 0 <= c < 6 ==> quad[c] == WallIndex(sides, 6 * k + c)
  {
    forall c | 0 <= c < 6
      ensures quad[c] == WallIndex(sides, 6 * k + c)
    {
      WallIndexAt(sides, k, c);
    }
  }

  /** Quad k starts in ring k / sides at position k % sides, which is never
      the seam position sides. */
  lemma FaceBaseRing(sides: int, k: int)
    requires sides >= 1 && k >= 0
    ensures FaceBase(sides, k) / (sides + 1) == k / sides
    ensures FaceBase(sides, k) % (sides + 1) == k % sides
    ensures FaceBase(sides, k) % (sides + 1) != sides
    ensures FaceBase(sides, k) == k + k / sides
  {
    IntMath.DivModOf(k / sides, k % sides, sides + 1);
  }

  /** One pass of the body loop: after quad k the cursor is FaceBase(k) + 1,
      and the seam test bumps it exactly when that lands on a seam vertex,
      so either way it ends on FaceBase(k + 1). */
  lemma FaceAdvance(sides: int, k: int)
    requires sides >= 1 && k >= 0
    ensures var face := FaceBase(sides, k) + 1;
            face != 0
            && ((face + 1) % (sides + 1) == 0 ==> face + 1 == FaceBase(sides, k + 1))
            && ((face + 1) % (sides + 1) != 0 ==> face == FaceBase(sides, k + 1))
  {
    var g := sides + 1;
    var q, r := k / sides, k % sides;
    assert k == q * sides + r;
    var face := FaceBase(sides, k) + 1;
    assert face == q * g + r + 1;
    if r == sides - 1 {
      assert k + 1 == (q + 1) * sides + 0;
      IntMath.DivModOf(q + 1, 0, sides);
      assert face + 1 == (q + 1) * g + 0;
      IntMath.DivModOf(q + 1, 0, g);
    } else {
      assert k + 1 == q * sides + (r + 1);
      IntMath.DivModOf(q, r + 1, sides);
      IntMath.DivModOf(q, r + 2, g);
    }
  }

  /** The body loop test: after quad k the cursor is below the limit exactly
      when quads remain, and the largest index of quad k stays inside the
      wall's g * s vertices. */
  /** The loop's face counter, advanced past the seam slot, lands on the
      first vertex of quad k. */
  lemma FaceStep(sides: int, k: int, face: int)
    requires sides >= 1 && k >= 0
    requires face == (if k == 0 then 0 else FaceBase(sides, k - 1) + 1)
    ensures (if (face + 1) % (sides + 1) == 0 && face != 0 then face + 1 else face) == FaceBase(sides, k)
  {
    if k > 0 {
      FaceAdvance(sides, k - 1);
    } else {
      assert FaceBase(sides, 0) == 0;
    }
  }

  lemma FaceLoopBound(sides: int, s: int, k: int)
    requires sides >= 1 && s >= 1 && 0 <= k < FaceCount(sides, s)
    ensures k + 1 < FaceCount(sides, s) ==> FaceBase(sides, k) + 1 < FaceLimit(sides, s)
    ensures k + 1 == FaceCount(sides, s) ==> FaceBase(sides, k) + 1 == FaceLimit(sides, s)
    ensures FaceBase(sides, k) + sides + 2 < WallVertexCount(sides, s)
  {
    var q := k / sides;
    FaceBaseRing(sides, k);
    assert q * sides <= k;
    if q > s - 2 {
      IntMath.MulMono(s - 1, q, sides);
    }
    assert q <= s - 2;
    assert sides * (s - 1) + sides == sides * s;
    assert (sides + 1) * s == sides * s + s;
    if k + 1 == FaceCount(sides, s) {
      assert k == (s - 2) * sides + (sides - 1);
      IntMath.DivModOf(s - 2, sides - 1, sides);
    }
  }

  // ---------------------------------------------------------------------
  // Reversed triangles

  /** The position, in the same triangle, of the corner that lands at
      position m once the triangle's corners are written in reverse order. */
  function MirrorSource(m: int): int
    requires m >= 0
  {
    m - m % 3 + (2 - m % 3)
  }

  /** A triangle starting at i (a multiple of 3) reverses into itself. */
  lemma MirrorTriple(i: int)
    requires i >= 0 && i % 3 == 0
    ensures MirrorSource(i) == i + 2 && MirrorSource(i + 1) == i + 1 && MirrorSource(i + 2) == i
  {
  }

  /** Mirroring stays inside the quad (block of six entries) and swaps the
      first and last corner of each of its two triangles. */
  lemma MirrorSplit(m: int)
    requires m >= 0
    ensures MirrorSource(m) / 6 == m / 6
    ensures MirrorSource(m) % 6 == MirrorSource(m % 6)
  {
    var q, c := m / 6, m % 6;
    IntMath.DivModOf(2 * q + c / 3, c % 3, 3);
    assert m == 3 * (2 * q + c / 3) + c % 3;
    var c2 := c - c % 3 + 2 - c % 3;
    assert MirrorSource(m) == q * 6 + c2;
    IntMath.DivModOf(q, c2, 6);
  }

  lemma MirrorInRange(m: int, h: int)
    requires 0 <= m < h && h % 3 == 0
    ensures 0 <= MirrorSource(m) < h
    ensures MirrorSource(m) / 6 == m / 6
  {
    MirrorSplit(m);
    assert m == 3 * (m / 3) + m % 3 && h == 3 * (h / 3);
    assert m / 3 < h / 3;
  }

  /** Mirroring keeps every entry of a block of whole triangles inside it. */
  lemma MirrorRange(h: int)
    requires h % 3 == 0
    ensures forall m :: 0 <= m < h ==> 0 <= MirrorSource(m) < h
  {
    forall m | 0 <= m < h
      ensures 0 <= MirrorSource(m) < h
    {
      MirrorInRange(m, h);
    }
  }

  // ---------------------------------------------------------------------
  // Caps

  /** Quad `face` of the start cap, for caps whose rings start at vertex
      `base`: two triangles joining the outer ring at base to the inner ring
      at base + g. */
  function StartCapQuad(sides: int, base: int, face: int): (q: seq<int>)
    ensures |q| == 6
    ensures var x, g := base + face, sides + 1;
      (forall c :: 0 <= c < 6 ==> q[c] in {x, x + 1, x + g, x + g + 1})
      && x in q && x + 1 in q && x + g in q && x + g + 1 in q
    // the two triangles share the diagonal, walked in opposite directions
    ensures q[0] == q[4] && q[1] == q[3]
  {
    var g := sides + 1;
    var x := base + face;
    [x + g, x + 1, x, x + 1, x + g, x + g + 1]
  }

  /** Quad `face` of the end cap: the same annulus on the last two rings,
      base + 2g and base + 3g, with each triangle's corners reversed. */
  function EndCapQuad(sides: int, base: int, face: int): (q: seq<int>)
    ensures |q| == 6
    ensures var x, g := base + 2 * (sides + 1) + face, sides + 1;
      (forall c :: 0 <= c < 6 ==> q[c] in {x, x + 1, x + g, x + g + 1})
      && x in q && x + 1 in q && x + g in q && x + g + 1 in q
    // the two triangles share the diagonal, walked in opposite directions
    ensures q[1] == q[5] && q[2] == q[4]
  {
    var g := sides + 1;
    var x := base + 2 * g + face;
    [x, x + 1, x + g, x + g + 1, x + g, x + 1]
  }

  /** Entry m of the start cap's index block. */
  function StartCapIndex(sides: int, base: int, m: int): int
    requires m >= 0
  {
    StartCapQuad(sides, base, m / 6)[m % 6]
  }

  /** Entry m of the end cap's index block. */
  function EndCapIndex(sides: int, base: int, m: int): int
    requires m >= 0
  {
    EndCapQuad(sides, base, m / 6)[m % 6]
  }

  /** The caps face opposite ways: every end-cap triangle is the matching
      start-cap triangle with its corners reversed, moved two rings on. */
  lemma CapWinding(sides: int, base: int, m: int)
    requires m >= 0
    ensures EndCapIndex(sides, base, m) == StartCapIndex(sides, base, MirrorSource(m)) + 2 * (sides + 1)
  {
    MirrorSplit(m);
    var q, c := m / 6, m % 6;
    var g := sides + 1;
    assert EndCapIndex(sides, base, m) == EndCapQuad(sides, base, q)[c];
    assert StartCapIndex(sides, base, MirrorSource(m)) == StartCapQuad(sides, base, q)[MirrorSource(c)];
  }

  /** Start-cap indices address the two start rings, end-cap indices the two
      end rings. */
  lemma CapIndexRange(sides: int, base: int, m: int)
    requires sides >= 1 && 0 <= m < 6 * sides
    ensures base <= StartCapIndex(sides, base, m) < base + 2 * (sides + 1)
    ensures base + 2 * (sides + 1) <= EndCapIndex(sides, base, m) < base + 4 * (sides + 1)
  {
    assert m / 6 < sides;
  }

  /** Entry c of the two caps' blocks together: the start cap's quads, then
      the end cap's. */
  function CapsIndex(sides: int, base: int, c: int): int
    requires c >= 0
  {
    if c < 6 * sides then StartCapIndex(sides, base, c) else EndCapIndex(sides, base, c - 6 * sides)
  }

  /** The caps' entries address the four cap rings that start at base. */
  lemma CapsIndexRange(sides: int, base: int, c: int)
    requires sides >= 1 && 0 <= c < 12 * sides
    ensures base <= CapsIndex(sides, base, c) < base + 4 * (sides + 1)
  {
    if c < 6 * sides {
      CapIndexRange(sides, base, c);
    } else {
      CapIndexRange(sides, base, c - 6 * sides);
    }
  }

  // ---------------------------------------------------------------------
  // The whole index buffer

  /** Entry m of the finished index buffer: the outer wall, then (with
      thickness) the inner wall as the outer one reversed and moved by one
      wall of vertices, then the start cap, then the end cap. */
  function MeshIndex(sides: int, s: int, thick: bool, m: int): int
    requires sides >= 1 && 0 <= m
  {
    var w := WallIndexCount(sides, s);
    if m < w || !thick then WallIndex(sides, m)
    else if m < 2 * w then WallIndex(sides, MirrorSource(m - w)) + WallVertexCount(sides, s)
    else CapsIndex(sides, 2 * WallVertexCount(sides, s), m - 2 * w)
  }

  /** Every entry of the outer wall's block addresses a vertex of the outer
      wall. */
  lemma WallIndexRange(sides: int, s: int, m: int)
    requires sides >= 1 && s >= 1 && 0 <= m < WallIndexCount(sides, s)
    ensures 0 <= WallIndex(sides, m) < WallVertexCount(sides, s)
  {
    assert m / 6 < FaceCount(sides, s);
    FaceLoopBound(sides, s, m / 6);
    FaceBaseRing(sides, m / 6);
  }

  /** Entries of the outer wall's block address the outer wall. */
  lemma OuterBlockRange(sides: int, s: int, thick: bool, m: int)
    requires sides >= 1 && s >= 1 && 0 <= m < MeshIndexCount(sides, s, thick)
    requires m < WallIndexCount(sides, s) || !thick
    ensures 0 <= MeshIndex(sides, s, thick, m) < WallVertexCount(sides, s)
  {
    WallIndexRange(sides, s, m);
  }

  /** Entries of the inner wall's block address the inner wall. */
  lemma InnerBlockRange(sides: int, s: int, m: int)
    requires sides >= 1 && s >= 1
    requires WallIndexCount(sides, s) <= m < 2 * WallIndexCount(sides, s)
    ensures WallVertexCount(sides, s) <= MeshIndex(sides, s, true, m) < 2 * WallVertexCount(sides, s)
  {
    var w := WallIndexCount(sides, s);
    MirrorInRange(m - w, w);
    WallIndexRange(sides, s, MirrorSource(m - w));
  }

  /** Entries of the two caps' blocks address the four cap rings. */
  lemma CapBlockRange(sides: int, s: int, m: int)
    requires sides >= 1 && s >= 1
    requires 2 * WallIndexCount(sides, s) <= m < MeshIndexCount(sides, s, true)
    ensures 2 * WallVertexCount(sides, s) <= MeshIndex(sides, s, true, m) < MeshVertexCount(sides, s, true)
  {
    var w, v := WallIndexCount(sides, s), WallVertexCount(sides, s);
    CapBlockEntry(sides, s, m);
    CapsIndexRange(sides, 2 * v, m - 2 * w);
  }

  /** Past both walls' blocks, the index buffer holds the caps' entries. */
  lemma CapBlockEntry(sides: int, s: int, m: int)
    requires sides >= 1 && s >= 1
    requires 2 * WallIndexCount(sides, s) <= m
    ensures MeshIndex(sides, s, true, m) == CapsIndex(sides, 2 * WallVertexCount(sides, s), m - 2 * WallIndexCount(sides, s))
    ensures MeshIndexCount(sides, s, true) == 2 * WallIndexCount(sides, s) + 12 * sides
    ensures MeshVertexCount(sides, s, true) == 2 * WallVertexCount(sides, s) + 4 * (sides + 1)
  {
    var w := WallIndexCount(sides, s);
    IntMath.MulMono(0, s - 1, sides);
    assert w >= 0;
    assert !(m < w) && !(m < 2 * w);
  }

  /** Every entry of the finished index buffer addresses a vertex of the
      finished vertex buffer. */
  lemma MeshIndexRange(sides: int, s: int, thick: bool, m: int)
    requires sides >= 1 && s >= 1 && 0 <= m < MeshIndexCount(sides, s, thick)
    ensures 0 <= MeshIndex(sides, s, thick, m) < MeshVertexCount(sides, s, thick)
  {
    var w := WallIndexCount(sides, s);
    if m < w || !thick {
      OuterBlockRange(sides, s, thick, m);
    } else if m < 2 * w {
      InnerBlockRange(sides, s, m);
    } else {
      CapBlockRange(sides, s, m);
    }
  }
}
